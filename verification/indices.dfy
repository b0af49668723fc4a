/** `indices.py`: the normalized-difference indices NDVI and NDWI, and the
    lookup of the green, red and near-infrared bands in a band order.

    Arithmetic is over `real`; the float32 conversion, rounding and NaN are
    not modelled.
 */
module Indices {
  import opened Results
  import opened Grids

  /** `np.divide(a - b, a + b, out=np.zeros_like(...), where=(a + b) != 0)`
      at one pixel: the normalized difference, and exactly zero where the
      denominator is zero. */
  function NormalizedDifference(a: real, b: real): (r: real)
    ensures a + b == 0.0 ==> r == 0.0
    ensures a + b != 0.0 ==> r * (a + b) == a - b
  {
    if a + b != 0.0 then (a - b) / (a + b) else 0.0
  }

  /** For non-negative inputs the index lies in [-1, 1]. */
  lemma NormalizedDifferenceBounds(a: real, b: real)
    requires a >= 0.0 && b >= 0.0
    ensures -1.0 <= NormalizedDifference(a, b) <= 1.0
  {
    if a + b != 0.0 {
      QuotientBounded(a - b, a + b);
    }
  }

  /** A quotient whose numerator is no larger in size than its positive
      denominator lies in [-1, 1]. */
  lemma QuotientBounded(d: real, s: real)
    requires s > 0.0 && -s <= d <= s
    ensures -1.0 <= d / s <= 1.0
  {
    var q := d / s;
    assert q * s == d;
    assert (1.0 - q) * s == s - d;
    assert (q + 1.0) * s == d + s;
    SignOfProduct(1.0 - q, s);
    SignOfProduct(q + 1.0, s);
  }

  lemma SignOfProduct(u: real, s: real)
    requires s > 0.0 && u * s >= 0.0
    ensures u >= 0.0
  {
  }

  /** Swapping the operands negates the index. */
  lemma NormalizedDifferenceSwap(a: real, b: real)
    ensures NormalizedDifference(b, a) == -NormalizedDifference(a, b)
  {
    if a + b != 0.0 {
      assert b + a == a + b;
      assert (b - a) / (a + b) == -((a - b) / (a + b));
    }
  }

  /** Two bands of one shape, row for row: what NumPy's element-wise
      arithmetic on two arrays needs. Unlike `IsGrid` it names no size and
      does not ask the rows to have one length. */
  predicate SameShape(a: Grid<real>, b: Grid<real>)
  {
    |a| == |b| && forall y | 0 <= y < |a| :: |a[y]| == |b[y]|
  }

  /** Applies `NormalizedDifference(a[y][x], b[y][x])` at every pixel. */
  function PixelwiseDifference(a: Grid<real>, b: Grid<real>): (r: Grid<real>)
    requires SameShape(a, b)
    ensures SameShape(r, a)
    ensures forall y, x | 0 <= y < |a| && 0 <= x < |a[y]| ::
      r[y][x] == NormalizedDifference(a[y][x], b[y][x])
  {
    seq(|a|, y requires 0 <= y < |a| =>
      seq(|a[y]|, x requires 0 <= x < |a[y]| => NormalizedDifference(a[y][x], b[y][x])))
  }

  /** `calculate_ndvi(red_band, nir_band)`. */
  function Ndvi(red: Grid<real>, nir: Grid<real>): (r: Grid<real>)
    requires SameShape(red, nir)
    ensures SameShape(r, nir)
    ensures forall y, x | 0 <= y < |nir| && 0 <= x < |nir[y]| ::
      && (nir[y][x] + red[y][x] == 0.0 ==> r[y][x] == 0.0)
      && (nir[y][x] + red[y][x] != 0.0 ==> r[y][x] * (nir[y][x] + red[y][x]) == nir[y][x] - red[y][x])
  {
    PixelwiseDifference(nir, red)
  }

  /** `calculate_ndwi(green_band, nir_band)`. */
  function Ndwi(green: Grid<real>, nir: Grid<real>): (r: Grid<real>)
    requires SameShape(green, nir)
    ensures SameShape(r, green)
    ensures forall y, x | 0 <= y < |green| && 0 <= x < |green[y]| ::
      && (green[y][x] + nir[y][x] == 0.0 ==> r[y][x] == 0.0)
      && (green[y][x] + nir[y][x] != 0.0 ==> r[y][x] * (green[y][x] + nir[y][x]) == green[y][x] - nir[y][x])
  {
    PixelwiseDifference(green, nir)
  }

  /** `calculate_ndwi(x, y)` is the pixelwise negation of `calculate_ndvi(x, y)`. */
  lemma NdwiIsNegatedNdvi(a: Grid<real>, b: Grid<real>)
    requires SameShape(a, b)
    ensures SameShape(Ndwi(a, b), Ndvi(a, b))
    ensures forall y, x | 0 <= y < |a| && 0 <= x < |a[y]| :: Ndwi(a, b)[y][x] == -Ndvi(a, b)[y][x]
  {
    forall y, x | 0 <= y < |a| && 0 <= x < |a[y]|
      ensures Ndwi(a, b)[y][x] == -Ndvi(a, b)[y][x]
    {
      NormalizedDifferenceSwap(a[y][x], b[y][x]);
    }
  }

  predicate NonNegative(g: Grid<real>)
  {
    forall y, x | 0 <= y < |g| && 0 <= x < |g[y]| :: g[y][x] >= 0.0
  }

  predicate WithinUnit(g: Grid<real>)
  {
    forall y, x | 0 <= y < |g| && 0 <= x < |g[y]| :: -1.0 <= g[y][x] <= 1.0
  }

  /** On non-negative reflectances both indices stay within [-1, 1]. */
  lemma IndicesBounded(a: Grid<real>, b: Grid<real>)
    requires SameShape(a, b) && NonNegative(a) && NonNegative(b)
    ensures WithinUnit(Ndvi(a, b)) && WithinUnit(Ndwi(a, b))
  {
    forall y, x | 0 <= y < |a| && 0 <= x < |a[y]|
      ensures -1.0 <= Ndvi(a, b)[y][x] <= 1.0 && -1.0 <= Ndwi(a, b)[y][x] <= 1.0
    {
      NormalizedDifferenceBounds(b[y][x], a[y][x]);
      NormalizedDifferenceBounds(a[y][x], b[y][x]);
    }
  }

  /** The band order assumed when none is given. */
  const DefaultBandOrder: seq<string> :=
    ["B02", "B03", "B04", "B05", "B06", "B07", "B08", "B8A", "B11", "B12"]

  /** `band_order.index(code)`, with `None` for the `ValueError`. */
  function IndexOf(s: seq<string>, code: string): (r: Option<nat>)
    ensures r.None? <==> code !in s
    ensures r.Some? ==> r.value < |s| && s[r.value] == code && forall j | 0 <= j < r.value :: s[j] != code
    decreases |s|
  {
    if |s| == 0 then None
    else if s[0] == code then Some(0)
    else
      var t := IndexOf(s[1..], code);
      assert s == [s[0]] + s[1..];
      if t.None? then None else Some(t.value + 1)
  }

  datatype Positions = Positions(green: nat, red: nat, nir: nat)

  /** The band order an index lookup uses. */
  function EffectiveOrder(order: Option<seq<string>>): seq<string>
  {
    if order.None? then DefaultBandOrder else order.value
  }

  /** Green, red and near-infrared positions: the first B03, B04 and B08 of
      the band order when all three are present, otherwise 1, 2 and 3
      together (the `except ValueError` fallback). */
  function BandPositions(order: Option<seq<string>>): (p: Positions)
    ensures var o := EffectiveOrder(order);
      && ("B03" in o && "B04" in o && "B08" in o ==>
            && p.green < |o| && o[p.green] == "B03" && (forall j | 0 <= j < p.green :: o[j] != "B03")
            && p.red < |o| && o[p.red] == "B04" && (forall j | 0 <= j < p.red :: o[j] != "B04")
            && p.nir < |o| && o[p.nir] == "B08" && (forall j | 0 <= j < p.nir :: o[j] != "B08"))
      && (!("B03" in o && "B04" in o && "B08" in o) ==> p == Positions(1, 2, 3))
  {
    var o := EffectiveOrder(order);
    var g := IndexOf(o, "B03");
    var r := IndexOf(o, "B04");
    var n := IndexOf(o, "B08");
    if g.Some? && r.Some? && n.Some? then Positions(g.value, r.value, n.value) else Positions(1, 2, 3)
  }

  /** With no band order, the default list puts green at 1, red at 2 and
      near-infrared at 6. */
  lemma DefaultPositions()
    ensures BandPositions(None) == Positions(1, 2, 6)
  {
    var o := DefaultBandOrder;
    assert o[1] == "B03" && o[2] == "B04" && o[6] == "B08";
    assert o[0] != "B03" && o[0] != "B04" && o[1] != "B04";
    assert forall j | 0 <= j < 6 :: o[j] != "B08";
  }

  /** The second half of `calculate_indices_from_sentinel2`: NDVI and NDWI
      from the bands at known positions. A position past the last band
      fails the subscript, green first, then red, then NIR. */
  function IndicesAt(data: Cube<real>, p: Positions): (r: Result<(Grid<real>, Grid<real>)>)
    requires IsCube(data)
    ensures r.Err? <==> p.green >= |data| || p.red >= |data| || p.nir >= |data|
    ensures r.Err? ==> r.error.IndexError?
    ensures r.Ok? ==>
      && IsGrid(r.value.0, Height(data), Width(data))
      && IsGrid(r.value.1, Height(data), Width(data))
      && forall y, x | 0 <= y < Height(data) && 0 <= x < Width(data) ::
           && r.value.0[y][x] == NormalizedDifference(data[p.nir][y][x], data[p.red][y][x])
           && r.value.1[y][x] == NormalizedDifference(data[p.green][y][x], data[p.nir][y][x])
  {
    if p.green >= |data| then Err(OutOfBounds(p.green, |data|))
    else if p.red >= |data| then Err(OutOfBounds(p.red, |data|))
    else if p.nir >= |data| then Err(OutOfBounds(p.nir, |data|))
    else
      var green, red, nir := data[p.green], data[p.red], data[p.nir];
      Ok((Ndvi(red, nir), Ndwi(green, nir)))
  }

  /** `calculate_indices_from_sentinel2(data, band_order)`: the indices of
      the bands at the looked-up positions. */
  function CalculateIndices(data: Cube<real>, order: Option<seq<string>>): (r: Result<(Grid<real>, Grid<real>)>)
    requires IsCube(data)
    ensures var p := BandPositions(order);
      r.Err? <==> p.green >= |data| || p.red >= |data| || p.nir >= |data|
    ensures r.Err? ==> r.error.IndexError?
    ensures r.Ok? ==>
      var p := BandPositions(order);
      && IsGrid(r.value.0, Height(data), Width(data))
      && IsGrid(r.value.1, Height(data), Width(data))
      && forall y, x | 0 <= y < Height(data) && 0 <= x < Width(data) ::
           && r.value.0[y][x] == NormalizedDifference(data[p.nir][y][x], data[p.red][y][x])
           && r.value.1[y][x] == NormalizedDifference(data[p.green][y][x], data[p.nir][y][x])
  {
    IndicesAt(data, BandPositions(order))
  }
}

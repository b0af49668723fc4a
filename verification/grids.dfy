/** Raster arrays as nested sequences.

    A band is a `Grid` indexed `[y][x]` (row, column); a band stack is a
    `Cube` indexed `[b][y][x]`, band-major like the `(bands, height, width)`
    arrays the pipeline builds with `np.stack(..., axis=0)`. NumPy arrays are
    always rectangular; here that is the predicate `IsGrid` / `IsCube`.
 */
module Grids {
  import opened Results
  import Strings

  type Grid<T> = seq<seq<T>>
  type Cube<T> = seq<Grid<T>>

  predicate IsGrid<T>(g: Grid<T>, h: nat, w: nat)
  {
    |g| == h && forall y | 0 <= y < h :: |g[y]| == w
  }

  /** `data.shape[1]` of a stack: the height of its first band. */
  function Height<T>(c: Cube<T>): nat
  {
    if |c| == 0 then 0 else |c[0]|
  }

  /** `data.shape[2]` of a stack: the width of its first band. */
  function Width<T>(c: Cube<T>): nat
  {
    if |c| == 0 || |c[0]| == 0 then 0 else |c[0][0]|
  }

  /** Every band has the shape of the first: what `np.stack` demands. */
  predicate IsCube<T>(c: Cube<T>)
  {
    forall b | 0 <= b < |c| :: IsGrid(c[b], Height(c), Width(c))
  }

  /** Bands that all have one shape make a stack of that shape. */
  lemma UniformIsCube<T>(c: Cube<T>, h: nat, w: nat)
    requires forall b | 0 <= b < |c| :: IsGrid(c[b], h, w)
    ensures IsCube(c)
    ensures |c| > 0 ==> Height(c) == h && Width(c) == (if h == 0 then 0 else w)
  {
  }

  /** NumPy's failure for a subscript past the end of the band axis. */
  function OutOfBounds(index: int, size: nat): Error
  {
    IndexError("index " + Strings.IntToString(index) + " is out of bounds for axis 0 with size " + Strings.IntToString(size))
  }

  /** A band stack as a NumPy array holds it: rectangular by construction. */
  type Stacked<T> = c: Cube<T> | IsCube(c) witness []

  /** `ndarray.flatten()` of a 2-D array: the rows concatenated in order. */
  function Flatten<T>(g: Grid<T>): seq<T>
  {
    if |g| == 0 then [] else g[0] + Flatten(g[1..])
  }

  /** `ndarray.reshape(h, w)` of a vector of length `h * w`. */
  function Unflatten<T>(v: seq<T>, h: nat, w: nat): Grid<T>
    requires |v| == h * w
  {
    if h == 0 then []
    else
      assert h * w == w + (h - 1) * w;
      [v[..w]] + Unflatten(v[w..], h - 1, w)
  }

  /** One more row adds one row's width. */
  lemma MulSucc(n: nat, w: nat)
    ensures (n + 1) * w == n * w + w
  {
  }

  lemma MulMonotone(a: nat, b: nat, w: nat)
    requires a <= b
    ensures a * w <= b * w
  {
  }

  lemma RowMajorInRange(h: nat, w: nat, y: nat, x: nat)
    requires y < h && x < w
    ensures y * w + x < h * w
  {
    MulSucc(y, w);
    MulMonotone(y + 1, h, w);
  }

  /** Every position `k` of a row-major `h`-by-`w` layout is the pixel
      `(k / w, k % w)`. */
  lemma RowMajorPixel(k: nat, h: nat, w: nat) returns (y: nat, x: nat)
    requires k < h * w
    ensures y < h && x < w && k == y * w + x
    ensures y == k / w && x == k % w
  {
    y, x := k / w, k % w;
  }

  lemma {:induction false} FlattenLength<T>(g: Grid<T>, h: nat, w: nat)
    requires IsGrid(g, h, w)
    ensures |Flatten(g)| == h * w
  {
    if h > 0 {
      FlattenLength(g[1..], h - 1, w);
      MulSucc(h - 1, w);
    }
  }

  lemma {:induction false} FlattenAt<T>(g: Grid<T>, h: nat, w: nat, y: nat, x: nat)
    requires IsGrid(g, h, w) && y < h && x < w
    ensures |Flatten(g)| == h * w && y * w + x < h * w
    ensures Flatten(g)[y * w + x] == g[y][x]
  {
    FlattenLength(g, h, w);
    RowMajorInRange(h, w, y, x);
    var rest := g[1..];
    assert Flatten(g) == g[0] + Flatten(rest);
    if y == 0 {
      assert y * w + x == x;
    } else {
      FlattenAt(rest, h - 1, w, y - 1, x);
      MulSucc(y - 1, w);
      assert rest[y - 1] == g[y];
    }
  }

  /** Pixel `(y, x)` of an `h`-by-`w` band lands at position `y * w + x` of
      its flattening, and the flattening has exactly `h * w` entries. */
  lemma FlattenIndex<T>(g: Grid<T>, h: nat, w: nat)
    requires IsGrid(g, h, w)
    ensures |Flatten(g)| == h * w
    ensures forall y, x | 0 <= y < h && 0 <= x < w ::
      y * w + x < h * w && Flatten(g)[y * w + x] == g[y][x]
  {
    FlattenLength(g, h, w);
    forall y, x | 0 <= y < h && 0 <= x < w
      ensures y * w + x < h * w && Flatten(g)[y * w + x] == g[y][x]
    {
      FlattenAt(g, h, w, y, x);
    }
  }

  /** Reshaping a flattened band back to its shape gives the band again. */
  lemma {:induction false} UnflattenFlatten<T>(g: Grid<T>, h: nat, w: nat)
    requires IsGrid(g, h, w)
    ensures |Flatten(g)| == h * w
    ensures Unflatten(Flatten(g), h, w) == g
  {
    FlattenLength(g, h, w);
    if h > 0 {
      UnflattenFlatten(g[1..], h - 1, w);
      assert Flatten(g)[..w] == g[0];
      assert Flatten(g)[w..] == Flatten(g[1..]);
      assert g == [g[0]] + g[1..];
    }
  }

  /** Flattening a reshaped vector gives the vector again, and the reshape
      is an `h`-by-`w` grid. */
  lemma {:induction false} FlattenUnflatten<T>(v: seq<T>, h: nat, w: nat)
    requires |v| == h * w
    ensures IsGrid(Unflatten(v, h, w), h, w)
    ensures Flatten(Unflatten(v, h, w)) == v
  {
    if h > 0 {
      assert h * w == w + (h - 1) * w;
      FlattenUnflatten(v[w..], h - 1, w);
      var u := Unflatten(v, h, w);
      assert u[0] == v[..w] && u[1..] == Unflatten(v[w..], h - 1, w);
      assert v == v[..w] + v[w..];
    }
  }

  lemma FlattenAll<T>(c: Cube<T>)
    requires IsCube(c)
    ensures forall b | 0 <= b < |c| :: |Flatten(c[b])| == Height(c) * Width(c)
  {
    forall b | 0 <= b < |c|
      ensures |Flatten(c[b])| == Height(c) * Width(c)
    {
      FlattenIndex(c[b], Height(c), Width(c));
    }
  }

  /** Row `k` gathers entry `k` of every band's flattening. */
  function Interleave<T>(c: Cube<T>, n: nat): (t: seq<seq<T>>)
    requires forall b | 0 <= b < |c| :: |Flatten(c[b])| == n
    ensures |t| == n
    ensures forall k | 0 <= k < n :: |t[k]| == |c|
    ensures forall k, b | 0 <= k < n && 0 <= b < |c| :: t[k][b] == Flatten(c[b])[k]
  {
    seq(n, k requires 0 <= k < n => seq(|c|, b requires 0 <= b < |c| => Flatten(c[b])[k]))
  }

  /** `t` lays out the stack `c` as a table: one row per pixel in row-major
      order, one column per band in stack order. */
  predicate TableOf<T(==)>(t: seq<seq<T>>, c: Cube<T>)
  {
    && IsCube(c)
    && |t| == Height(c) * Width(c)
    && (forall k | 0 <= k < |t| :: |t[k]| == |c|)
    && forall b, y, x | 0 <= b < |c| && 0 <= y < Height(c) && 0 <= x < Width(c) ::
         y * Width(c) + x < |t| && t[y * Width(c) + x][b] == c[b][y][x]
  }

  /** `data.reshape(bands, -1).T` of a stack. */
  function FeatureTable<T(==)>(c: Cube<T>): (t: seq<seq<T>>)
    requires IsCube(c)
    ensures TableOf(t, c)
  {
    var h, w := Height(c), Width(c);
    FlattenAll(c);
    var t := Interleave(c, h * w);
    forall b, y, x | 0 <= b < |c| && 0 <= y < h && 0 <= x < w
      ensures y * w + x < |t| && t[y * w + x][b] == c[b][y][x]
    {
      FlattenAt(c[b], h, w, y, x);
    }
    t
  }

  /** Column `b` of a feature table: one value per pixel. */
  function Column<T>(t: seq<seq<T>>, b: nat): seq<T>
    requires forall k | 0 <= k < |t| :: b < |t[k]|
  {
    seq(|t|, k requires 0 <= k < |t| => t[k][b])
  }

  /** Reshaping column `b` of the feature table back to the band's shape
      reproduces band `b`: flattening and the row-major reshape used on the
      classifier output are inverse to each other. */
  lemma FeatureTableColumnRoundTrip<T>(c: Cube<T>, b: nat)
    requires IsCube(c) && b < |c|
    ensures |Column(FeatureTable(c), b)| == Height(c) * Width(c)
    ensures Unflatten(Column(FeatureTable(c), b), Height(c), Width(c)) == c[b]
  {
    var t := FeatureTable(c);
    FlattenIndex(c[b], Height(c), Width(c));
    assert Column(t, b) == Flatten(c[b]);
    UnflattenFlatten(c[b], Height(c), Width(c));
  }
}

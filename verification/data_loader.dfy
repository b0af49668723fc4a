/** `data_loader.py`: loading a SAFE folder with a per-resolution default
    band request, the feature table, and the two ways of making training
    labels (a fixed row pattern, and thresholds on NDVI and NDWI).

    The end-to-end flow of `process_multispectral.py` up to the training
    call is `ProcessMultispectral`.
 */
module DataLoader {
  import opened Results
  import opened Strings
  import opened Grids
  import opened GeospatialUtils
  import opened Resampling
  import opened Indices

  /** The bands requested from each resolution folder when the caller names
      none. Several of them are not spectral bands (AOT, SCL, TCI, WVP) or
      not native to that resolution. */
  const RequestedBandsByResolution: map<int, seq<string>> :=
    map[10 := Requested10, 20 := Requested20, 60 := Requested60]

  const Requested10: seq<string> := ["AOT", "B02", "B03", "B04", "B08", "TCI", "WVP"]
  const Requested20: seq<string> :=
    ["AOT", "B01", "B02", "B03", "B04", "B05", "B06", "B07", "B11", "B12", "B8A", "SCL", "TCI", "WVP"]
  const Requested60: seq<string> :=
    ["AOT", "B01", "B02", "B03", "B04", "B05", "B06", "B07", "B09", "B11", "B12", "B8A", "SCL", "TCI", "WVP"]

  /** `(data, profile, band_order)` as returned by the loader. */
  datatype Loaded = Loaded(data: Stacked<real>, profile: Profile, bandOrder: seq<string>)

  /** `selected_bands` after the `None` default; an unknown resolution fails
      the table lookup. */
  function RequestedBands(target: int, selected: Option<seq<string>>): Result<seq<string>>
  {
    if selected.Some? then Ok(selected.value)
    else if target in RequestedBandsByResolution then Ok(RequestedBandsByResolution[target])
    else Err(KeyError(IntToString(target)))
  }

  /** The `band_paths` dict the SAFE loader builds for a request. */
  function BandFiles(safe: SafeFolder, target: int, request: seq<string>): (d: Dicts.Dict<string>)
    requires target in ResolutionBands && |safe.granules| > 0
    ensures Dicts.Valid(d)
  {
    FindBandPaths(safe.granules[0].imgData, target, SelectBands(target, Some(request)).value)
  }

  /** The bands that end up in the stack for a request: found in the
      folder, native to the target resolution, in sorted order. */
  function StackedOrder(safe: SafeFolder, target: int, request: seq<string>): (order: seq<string>)
    requires target in ResolutionBands && |safe.granules| > 0
    ensures Ascending(order)
    ensures forall b | b in order :: b in Dicts.Keys(BandFiles(safe, target, request)) && AtResolution(b, target)
    ensures forall b | b in order :: b in request
  {
    var bands := SelectBands(target, Some(request)).value;
    var order := LoadedOrder(safe, target, Some(request));
    forall b | b in order
      ensures b in request
    {
      assert Dicts.Get(BandFiles(safe, target, request), b).Some?;
      assert multiset(bands)[b] > 0;
    }
    order
  }

  /** `load_sentinel2_multispectral(...)` as written: the band order it
      returns is the list that was requested, whatever was stacked. */
  function LoadMultispectral(safe: SafeFolder, target: int, selected: Option<seq<string>>, roi: Option<GeoJson>, env: Env): (r: Result<Loaded>)
    ensures target !in ResolutionBands ==> r == Err(KeyError(IntToString(target)))
    ensures target in ResolutionBands && |safe.granules| == 0 ==> r == Err(StopIteration)
    ensures target in ResolutionBands && |safe.granules| > 0 ==>
      RequestedBands(target, selected).Ok? &&
      LoadDecided(r, safe, target, Some(RequestedBands(target, selected).value), roi, env)
    ensures r.Ok? ==>
      && target in ResolutionBands && |safe.granules| > 0
      && RequestedBands(target, selected) == Ok(r.value.bandOrder)
      && r.value.profile.count == |StackedOrder(safe, target, r.value.bandOrder)|
      && |r.value.data| == |StackedOrder(safe, target, r.value.bandOrder)|
    ensures r.Ok? && roi.None? ==>
      var order := StackedOrder(safe, target, r.value.bandOrder);
      forall i | 0 <= i < |order| ::
           r.value.data[i] == env.read(Lookup(BandFiles(safe, target, r.value.bandOrder), order[i]))
  {
    var request :- RequestedBands(target, selected);
    var stack :- LoadSafeFolder(safe, target, Some(request), roi, env);
    Ok(Loaded(stack.data, stack.profile, request))
  }

  /** The default requests name B03, B04 and B08 at positions 2, 3 and 4
      at 10 m; at 60 m B08 is missing, so the lookup falls back to 1, 2, 3. */
  lemma RequestedPositions()
    ensures BandPositions(Some(RequestedBandsByResolution[10])) == Positions(2, 3, 4)
    ensures BandPositions(Some(RequestedBandsByResolution[60])) == Positions(1, 2, 3)
  {
    assert RequestedBandsByResolution[10] == Requested10;
    assert RequestedBandsByResolution[60] == Requested60;
    RequestedPositions10();
    RequestedPositions60();
  }

  lemma RequestedPositions60()
    ensures BandPositions(Some(Requested60)) == Positions(1, 2, 3)
  {
    assert forall i | 0 <= i < |Requested60| :: Requested60[i] != "B08";
  }

  lemma RequestedPositions10()
    ensures BandPositions(Some(Requested10)) == Positions(2, 3, 4)
  {
    var r := Requested10;
    assert r[2] == "B03" && r[3] == "B04" && r[4] == "B08";
    // The codes differ in their third character.
    assert "AOT"[2] == 'T' && "B02"[2] == '2' && "B03"[2] == '3' && "B04"[2] == '4' && "B08"[2] == '8';
    assert "B03" !in r[..2] && "B04" !in r[..3] && "B08" !in r[..4] by {
      assert r[..4] == ["AOT", "B02", "B03", "B04"];
    }
    IndexOfFirst(r, "B03", 2);
    IndexOfFirst(r, "B04", 3);
    IndexOfFirst(r, "B08", 4);
  }

  /** The first occurrence of a code is where `list.index` finds it. */
  lemma IndexOfFirst(s: seq<string>, code: string, i: nat)
    requires i < |s| && s[i] == code && code !in s[..i]
    ensures IndexOf(s, code) == Some(i)
  {
  }

  /** The bands of the default request that are native to its resolution. */
  function DefaultNative(target: int): set<string>
  {
    if target == 10 then {"B02", "B03", "B04", "B08"} else {"B01", "B09"}
  }

  lemma DefaultNativeSize(target: int)
    ensures |DefaultNative(target)| == if target == 10 then 4 else 2
  {
    if target == 10 {
      assert {"B02", "B03", "B04", "B08"} == {"B02", "B03"} + {"B04", "B08"};
    }
  }

  lemma InDefaultNative(b: string, target: int)
    requires target == 10 || target == 60
    requires target in RequestedBandsByResolution && b in RequestedBandsByResolution[target]
    requires AtResolution(b, target)
    ensures b in DefaultNative(target)
  {
    TablesAgree(b, target);
    if target == 60 {
      assert "B10" !in RequestedBandsByResolution[60];
    }
  }

  /** At most four bands (10 m) or two bands (60 m) of the default request
      can be stacked: the request's bands native to that resolution. */
  lemma DefaultStackBound(safe: SafeFolder, target: int)
    requires target == 10 || target == 60
    requires |safe.granules| > 0
    ensures |StackedOrder(safe, target, RequestedBandsByResolution[target])| <= if target == 10 then 4 else 2
  {
    var request := RequestedBandsByResolution[target];
    var order := StackedOrder(safe, target, request);
    AscendingDistinct(order);
    forall i | 0 <= i < |order|
      ensures order[i] in DefaultNative(target)
    {
      InDefaultNative(order[i], target);
    }
    DistinctWithin(order, DefaultNative(target));
    DefaultNativeSize(target);
  }

  /** With the default request at 10 m or at 60 m and no region of interest,
      the band order returned by `LoadMultispectral` never lets the index
      computation succeed: at 10 m it points at positions 2, 3 and 4 of a
      stack of at most four bands, at 60 m it falls back to positions 1, 2
      and 3 of a stack of at most two. */
  lemma RequestedOrderBreaksIndices(safe: SafeFolder, target: int, roi: Option<GeoJson>, env: Env)
    requires target == 10 || target == 60
    ensures LoadMultispectral(safe, target, None, roi, env).Ok? ==>
      var l := LoadMultispectral(safe, target, None, roi, env).value;
      && l.bandOrder == RequestedBandsByResolution[target]
      && |l.data| <= (if target == 10 then 4 else 2)
      && l.bandOrder != StackedOrder(safe, target, l.bandOrder)
      && CalculateIndices(l.data, Some(l.bandOrder)).Err?
  {
    if LoadMultispectral(safe, target, None, roi, env).Ok? {
      DefaultOrderBreaks(safe, target, LoadMultispectral(safe, target, None, roi, env).value);
    }
  }

  /** A stack that holds only the bands found for the default request is
      too short for the positions that request names. */
  lemma DefaultOrderBreaks(safe: SafeFolder, target: int, l: Loaded)
    requires target == 10 || target == 60
    requires |safe.granules| > 0
    requires l.bandOrder == RequestedBandsByResolution[target]
    requires |l.data| == |StackedOrder(safe, target, l.bandOrder)|
    ensures |l.data| <= (if target == 10 then 4 else 2)
    ensures l.bandOrder != StackedOrder(safe, target, l.bandOrder)
    ensures CalculateIndices(l.data, Some(l.bandOrder)).Err?
  {
    var request := l.bandOrder;
    DefaultStackBound(safe, target);
    assert |request| > 4;
    RequestedPositions();
    var p := BandPositions(Some(request));
    assert p.nir >= |l.data|;
  }

  /** The loader with the band order corrected: the requested list is
      replaced by the order of the bands actually stacked. */
  function LoadMultispectralCorrected(safe: SafeFolder, target: int, selected: Option<seq<string>>, roi: Option<GeoJson>, env: Env): (r: Result<Loaded>)
    ensures target !in ResolutionBands ==> r == Err(KeyError(IntToString(target)))
    ensures target in ResolutionBands && |safe.granules| == 0 ==> r == Err(StopIteration)
    ensures target in ResolutionBands && |safe.granules| > 0 ==>
      RequestedBands(target, selected).Ok? &&
      LoadDecided(r, safe, target, Some(RequestedBands(target, selected).value), roi, env)
    ensures r.Ok? ==>
      && target in ResolutionBands && |safe.granules| > 0
      && RequestedBands(target, selected).Ok?
      && Ascending(r.value.bandOrder)
      && r.value.profile.count == |r.value.bandOrder|
      && |r.value.data| == |r.value.bandOrder|
      && forall b | b in r.value.bandOrder ::
           && b in RequestedBands(target, selected).value
           && AtResolution(b, target)
           && b in Dicts.Keys(BandFiles(safe, target, RequestedBands(target, selected).value))
    ensures r.Ok? && roi.None? ==>
      var files := BandFiles(safe, target, RequestedBands(target, selected).value);
      forall i | 0 <= i < |r.value.bandOrder| ::
           r.value.data[i] == env.read(Lookup(files, r.value.bandOrder[i]))
  {
    var l :- LoadMultispectral(safe, target, selected, roi, env);
    Ok(l.(bandOrder := StackedOrder(safe, target, l.bandOrder)))
  }

  /** `ndvi` and `ndwi` are, pixel by pixel over an `h` by `w` image, the
      indices of the `green`, `red` and `nir` grids. */
  predicate IndicesOf(ndvi: Grid<real>, ndwi: Grid<real>, green: Grid<real>, red: Grid<real>, nir: Grid<real>, h: nat, w: nat)
  {
    && IsGrid(ndvi, h, w) && IsGrid(ndwi, h, w)
    && IsGrid(green, h, w) && IsGrid(red, h, w) && IsGrid(nir, h, w)
    && forall y, x | 0 <= y < h && 0 <= x < w ::
         && ndvi[y][x] == NormalizedDifference(nir[y][x], red[y][x])
         && ndwi[y][x] == NormalizedDifference(green[y][x], nir[y][x])
  }

  /** With the corrected band order, whenever B03, B04 and B08 were all
      stacked the indices are computed from exactly those files. */
  lemma CorrectedOrderUsesNamedBands(safe: SafeFolder, target: int, selected: Option<seq<string>>, env: Env)
    ensures var r := LoadMultispectralCorrected(safe, target, selected, None, env);
      r.Ok? && "B03" in r.value.bandOrder && "B04" in r.value.bandOrder && "B08" in r.value.bandOrder ==>
      var l := r.value;
      var files := BandFiles(safe, target, RequestedBands(target, selected).value);
      && CalculateIndices(l.data, Some(l.bandOrder)).Ok?
      && var (ndvi, ndwi) := CalculateIndices(l.data, Some(l.bandOrder)).value;
         IndicesOf(ndvi, ndwi, env.read(Lookup(files, "B03")), env.read(Lookup(files, "B04")),
                   env.read(Lookup(files, "B08")), Height(l.data), Width(l.data))
  {
    var r := LoadMultispectralCorrected(safe, target, selected, None, env);
    if r.Ok? && "B03" in r.value.bandOrder && "B04" in r.value.bandOrder && "B08" in r.value.bandOrder {
      var l := r.value;
      var p := BandPositions(Some(l.bandOrder));
      assert l.bandOrder[p.green] == "B03" && l.bandOrder[p.red] == "B04" && l.bandOrder[p.nir] == "B08";
      assert IsGrid(l.data[p.green], Height(l.data), Width(l.data));
      assert IsGrid(l.data[p.red], Height(l.data), Width(l.data));
      assert IsGrid(l.data[p.nir], Height(l.data), Width(l.data));
    }
  }

  /** `prepare_features(data)`: one row per pixel, row-major, one column
      per band in stack order; a stack with no band cannot be reshaped. */
  function PrepareFeatures(data: Stacked<real>): (r: Result<seq<seq<real>>>)
    ensures |data| == 0 ==> r == Err(ValueError("cannot reshape array of size 0 into shape (0,newaxis)"))
    ensures |data| > 0 ==> r.Ok?
    ensures r.Ok? ==> TableOf(r.value, data)
  {
    CommonResolutionDataset(data, None)
  }

  // ---------------------------------------------------------------------
  // Labels

  /** The class of one pixel decided in one step: water (0) when NDWI is
      above 0.3, otherwise vegetation (1) when NDVI is above 0.4, otherwise
      urban (2). */
  function PixelClass(ndvi: real, ndwi: real): nat
  {
    if ndwi > 0.3 then 0 else if ndvi > 0.4 then 1 else 2
  }

  /** The boolean mask that assigns label `m` in `create_sample_labels_from_index`. */
  predicate MaskHolds(m: nat, ndvi: real, ndwi: real)
  {
    if m == 0 then ndwi > 0.3
    else if m == 1 then ndvi > 0.4 && ndwi <= 0.3
    else if m == 2 then ndvi <= 0.4 && ndwi <= 0.3
    else false
  }

  /** The three masks are pairwise disjoint and cover every pixel: exactly
      the mask of the pixel's class holds. */
  lemma MasksPartition(ndvi: real, ndwi: real)
    ensures forall m: nat :: MaskHolds(m, ndvi, ndwi) <==> m == PixelClass(ndvi, ndwi)
  {
  }

  /** `labels[mask] = m` for each mask in turn, on one pixel starting from
      `start`. */
  function ApplyMasks(masks: seq<nat>, ndvi: real, ndwi: real, start: nat): nat
    decreases |masks|
  {
    if |masks| == 0 then start
    else ApplyMasks(masks[1..], ndvi, ndwi, if MaskHolds(masks[0], ndvi, ndwi) then masks[0] else start)
  }

  /** Because the masks partition the pixels, applying any list of them in
      any order leaves the pixel's class if that class's mask is in the
      list, and the starting value otherwise. */
  lemma {:induction false} ApplyMasksAnyOrder(masks: seq<nat>, ndvi: real, ndwi: real, start: nat)
    ensures ApplyMasks(masks, ndvi, ndwi, start) ==
      if PixelClass(ndvi, ndwi) in masks then PixelClass(ndvi, ndwi) else start
    decreases |masks|
  {
    MasksPartition(ndvi, ndwi);
    if |masks| > 0 {
      var next := if MaskHolds(masks[0], ndvi, ndwi) then masks[0] else start;
      ApplyMasksAnyOrder(masks[1..], ndvi, ndwi, next);
      assert masks == [masks[0]] + masks[1..];
    }
  }

  /** One pixel of `create_sample_labels_from_index`: the water, vegetation
      and urban masks applied in that order to a zero label. */
  function LabelByMasks(ndvi: real, ndwi: real): (c: nat)
    ensures c == PixelClass(ndvi, ndwi)
    ensures c < 3
  {
    ApplyMasksAnyOrder([0, 1, 2], ndvi, ndwi, 0);
    ApplyMasks([0, 1, 2], ndvi, ndwi, 0)
  }

  /** The label grid of two index grids of the same shape. */
  function LabelGrid(ndvi: Grid<real>, ndwi: Grid<real>, h: nat, w: nat): (g: Grid<nat>)
    requires IsGrid(ndvi, h, w) && IsGrid(ndwi, h, w)
    ensures IsGrid(g, h, w)
    ensures forall y, x | 0 <= y < h && 0 <= x < w :: g[y][x] == PixelClass(ndvi[y][x], ndwi[y][x])
  {
    seq(h, y requires 0 <= y < h => seq(w, x requires 0 <= x < w => LabelByMasks(ndvi[y][x], ndwi[y][x])))
  }

  /** `labels` holds, pixel by pixel in row-major order, the class of the
      NDVI and NDWI computed from the bands of `data` at positions `p`. */
  predicate ClassifiedRowMajor(labels: seq<nat>, data: Cube<real>, p: Positions)
  {
    && IsCube(data)
    && p.green < |data| && p.red < |data| && p.nir < |data|
    && |labels| == Height(data) * Width(data)
    && forall y, x | 0 <= y < Height(data) && 0 <= x < Width(data) ::
         && y * Width(data) + x < |labels|
         && labels[y * Width(data) + x] == PixelClass(
              NormalizedDifference(data[p.nir][y][x], data[p.red][y][x]),
              NormalizedDifference(data[p.green][y][x], data[p.nir][y][x]))
  }

  /** `create_sample_labels_from_index(data, band_order)`: the masked label
      grid, flattened row-major. */
  function CreateSampleLabelsFromIndex(data: Stacked<real>, order: Option<seq<string>>): (r: Result<seq<nat>>)
    ensures var p := BandPositions(order);
      r.Err? <==> p.green >= |data| || p.red >= |data| || p.nir >= |data|
    ensures r.Err? ==> r.error.IndexError?
    ensures r.Ok? ==> ClassifiedRowMajor(r.value, data, BandPositions(order))
  {
    var indices :- CalculateIndices(data, order);
    IndexLabels(data, BandPositions(order), indices.0, indices.1);
    Ok(FlatLabels(indices.0, indices.1, Height(data), Width(data)))
  }

  /** Labels computed from index grids that hold NDVI and NDWI of the bands
      at positions `p` are the classes of those bands' indices. */
  lemma IndexLabels(data: Cube<real>, p: Positions, ndvi: Grid<real>, ndwi: Grid<real>)
    requires IsCube(data) && p.green < |data| && p.red < |data| && p.nir < |data|
    requires IsGrid(ndvi, Height(data), Width(data)) && IsGrid(ndwi, Height(data), Width(data))
    requires forall y, x | 0 <= y < Height(data) && 0 <= x < Width(data) ::
      && ndvi[y][x] == NormalizedDifference(data[p.nir][y][x], data[p.red][y][x])
      && ndwi[y][x] == NormalizedDifference(data[p.green][y][x], data[p.nir][y][x])
    ensures ClassifiedRowMajor(FlatLabels(ndvi, ndwi, Height(data), Width(data)), data, p)
  {
  }

  /** The label grid of two index grids, flattened row-major. */
  function FlatLabels(ndvi: Grid<real>, ndwi: Grid<real>, h: nat, w: nat): (r: seq<nat>)
    requires IsGrid(ndvi, h, w) && IsGrid(ndwi, h, w)
    ensures |r| == h * w
    ensures forall y, x | 0 <= y < h && 0 <= x < w ::
      y * w + x < |r| && r[y * w + x] == PixelClass(ndvi[y][x], ndwi[y][x])
  {
    var grid := LabelGrid(ndvi, ndwi, h, w);
    FlattenIndex(grid, h, w);
    Flatten(grid)
  }

  /** Row `y`'s class in the demo pattern of an `h`-row image: the top third
      (rounded down) is water, the rows up to two thirds (rounded down)
      vegetation, the rest urban. */
  function DemoClass(y: int, h: nat): nat
  {
    if 3 * (y + 1) <= h then 0 else if 3 * (y + 1) <= 2 * h then 1 else 2
  }

  /** A grid whose row `y` holds `DemoClass(y, h)` throughout flattens to
      a vector whose entry `k` is `DemoClass(k / w, h)`. */
  lemma FlattenByRow(g: Grid<nat>, h: nat, w: nat)
    requires IsGrid(g, h, w)
    requires forall y, x | 0 <= y < h && 0 <= x < w :: g[y][x] == DemoClass(y, h)
    ensures |Flatten(g)| == h * w
    ensures forall k | 0 <= k < |Flatten(g)| :: w > 0 && Flatten(g)[k] == DemoClass(k / w, h)
  {
    FlattenLength(g, h, w);
    forall k | 0 <= k < |Flatten(g)|
      ensures w > 0 && Flatten(g)[k] == DemoClass(k / w, h)
    {
      var y, x := RowMajorPixel(k, h, w);
      FlattenAt(g, h, w, y, x);
      assert Flatten(g)[k] == g[y][x] == DemoClass(y, h);
    }
  }

  /** Row `y` lies above `n // 3` exactly when `3 * (y + 1) <= n`. */
  lemma ThirdBounds(y: nat, n: nat)
    ensures y < n / 3 <==> 3 * (y + 1) <= n
    ensures y < 2 * n / 3 <==> 3 * (y + 1) <= 2 * n
  {
  }

  /** `labels[lo:hi, :] = value` on an `h`-row grid, `lo <= hi <= h`. */
  function FillRows(g: Grid<nat>, lo: nat, hi: nat, value: nat): (r: Grid<nat>)
    ensures |r| == |g|
    ensures forall y | 0 <= y < |g| :: |r[y]| == |g[y]|
    ensures forall y, x | 0 <= y < |g| && 0 <= x < |g[y]| ::
      r[y][x] == if lo <= y < hi then value else g[y][x]
  {
    seq(|g|, y requires 0 <= y < |g| => if lo <= y < hi then seq(|g[y]|, x => value) else g[y])
  }

  /** `create_sample_labels(height, width)`: three horizontal bands, the
      slice bounds `height // 3` and `2 * height // 3`, flattened
      row-major. */
  function CreateSampleLabels(h: nat, w: nat): (r: seq<nat>)
    ensures |r| == h * w
    ensures forall k | 0 <= k < |r| :: w > 0 && r[k] == DemoClass(k / w, h)
  {
    var g := DemoGrid(h, w);
    FlattenByRow(g, h, w);
    Flatten(g)
  }

  /** The `labels` array before `flatten()`: zeros, then the three slice
      assignments in the order the source makes them. */
  function DemoGrid(h: nat, w: nat): (g: Grid<nat>)
    ensures IsGrid(g, h, w)
    ensures forall y, x | 0 <= y < h && 0 <= x < w :: g[y][x] == DemoClass(y, h)
  {
    var zeros := seq(h, y => seq(w, x => 0));
    var g1 := FillRows(zeros, 0, h / 3, 0);
    var g2 := FillRows(g1, h / 3, 2 * h / 3, 1);
    var g := FillRows(g2, 2 * h / 3, h, 2);
    forall y, x | 0 <= y < h && 0 <= x < w
      ensures g[y][x] == DemoClass(y, h)
    {
      ThirdBounds(y, h);
      assert g1[y][x] == 0;
    }
    g
  }

  /** Going down the image the demo class never decreases. */
  lemma DemoClassMonotone(y1: nat, y2: nat, h: nat)
    requires y1 <= y2
    ensures DemoClass(y1, h) <= DemoClass(y2, h)
  {
  }

  // ---------------------------------------------------------------------
  // process_multispectral.py, up to the classifier

  datatype Training = Training(features: seq<seq<real>>, labels: seq<nat>, height: nat, width: nat, bandOrder: seq<string>)

  /** Label `k` is the class of the indices computed from feature row `k`:
      the table and the labels walk the pixels in the same row-major order. */
  lemma LabelsFollowFeatures(data: Stacked<real>, order: Option<seq<string>>)
    ensures PrepareFeatures(data).Ok? && CreateSampleLabelsFromIndex(data, order).Ok? ==>
      var features, labels := PrepareFeatures(data).value, CreateSampleLabelsFromIndex(data, order).value;
      var p := BandPositions(order);
      && |features| == |labels|
      && forall k | 0 <= k < |features| ::
           && p.green < |features[k]| && p.red < |features[k]| && p.nir < |features[k]|
           && labels[k] == PixelClass(
                NormalizedDifference(features[k][p.nir], features[k][p.red]),
                NormalizedDifference(features[k][p.green], features[k][p.nir]))
  {
    if PrepareFeatures(data).Ok? && CreateSampleLabelsFromIndex(data, order).Ok? {
      RowsFromPixels(PrepareFeatures(data).value, CreateSampleLabelsFromIndex(data, order).value, data, BandPositions(order));
    }
  }

  /** The row-major bookkeeping behind `LabelsFollowFeatures`, stated for
      any table and label vector laid out pixel by pixel. */
  lemma RowsFromPixels(features: seq<seq<real>>, labels: seq<nat>, data: Cube<real>, p: Positions)
    requires IsCube(data) && p.green < |data| && p.red < |data| && p.nir < |data|
    requires |features| == Height(data) * Width(data) == |labels|
    requires forall k | 0 <= k < |features| :: |features[k]| == |data|
    requires forall b, y, x | 0 <= b < |data| && 0 <= y < Height(data) && 0 <= x < Width(data) ::
      y * Width(data) + x < |features| && features[y * Width(data) + x][b] == data[b][y][x]
    requires forall y, x | 0 <= y < Height(data) && 0 <= x < Width(data) ::
      && y * Width(data) + x < |labels|
      && labels[y * Width(data) + x] == PixelClass(
           NormalizedDifference(data[p.nir][y][x], data[p.red][y][x]),
           NormalizedDifference(data[p.green][y][x], data[p.nir][y][x]))
    ensures forall k | 0 <= k < |features| ::
      && p.green < |features[k]| && p.red < |features[k]| && p.nir < |features[k]|
      && labels[k] == PixelClass(
           NormalizedDifference(features[k][p.nir], features[k][p.red]),
           NormalizedDifference(features[k][p.green], features[k][p.nir]))
  {
    var h, w := Height(data), Width(data);
    forall k | 0 <= k < |features|
      ensures labels[k] == PixelClass(
        NormalizedDifference(features[k][p.nir], features[k][p.red]),
        NormalizedDifference(features[k][p.green], features[k][p.nir]))
    {
      var y, x := RowMajorPixel(k, h, w);
      assert features[k][p.nir] == data[p.nir][y][x];
      assert features[k][p.red] == data[p.red][y][x];
      assert features[k][p.green] == data[p.green][y][x];
    }
  }

  /** Whenever the corrected loader stacks B03, B04 and B08, the corrected
      flow reaches training: the named bands sit inside the stack, so the
      index subscripts cannot fail. */
  lemma CorrectedTrainsWithNamedBands(safe: SafeFolder, target: int, selected: Option<seq<string>>, roi: Option<GeoJson>, env: Env)
    ensures var l := LoadMultispectralCorrected(safe, target, selected, roi, env);
      l.Ok? && "B03" in l.value.bandOrder && "B04" in l.value.bandOrder && "B08" in l.value.bandOrder ==>
      ProcessMultispectralCorrected(safe, target, selected, roi, env).Ok?
  {
    var l := LoadMultispectralCorrected(safe, target, selected, roi, env);
    if l.Ok? && "B03" in l.value.bandOrder && "B04" in l.value.bandOrder && "B08" in l.value.bandOrder {
      NamedBandsTrain(l.value);
    }
  }

  /** A loaded stack whose band order is as long as the stack and names
      B03, B04 and B08 gets through feature preparation and labelling. */
  lemma NamedBandsTrain(l: Loaded)
    requires |l.data| == |l.bandOrder|
    requires "B03" in l.bandOrder && "B04" in l.bandOrder && "B08" in l.bandOrder
    ensures Train(l).Ok?
  {
    var p := BandPositions(Some(l.bandOrder));
    assert p.green < |l.data| && p.red < |l.data| && p.nir < |l.data|;
    assert PrepareFeatures(l.data).Ok?;
  }

  /** `process_multispectral.py` up to training: load, build the feature
      table and the index-derived labels. There are exactly as many labels
      as feature rows, and each label is the class computed from its own
      row's columns at the band positions the loader's band order names. */
  function ProcessMultispectral(safe: SafeFolder, target: int, selected: Option<seq<string>>, roi: Option<GeoJson>, env: Env): (r: Result<Training>)
    ensures r.Ok? ==> TrainingConsistent(r.value)
  {
    var l :- LoadMultispectral(safe, target, selected, roi, env);
    Train(l)
  }

  /** The same flow on the corrected loader. */
  function ProcessMultispectralCorrected(safe: SafeFolder, target: int, selected: Option<seq<string>>, roi: Option<GeoJson>, env: Env): (r: Result<Training>)
    ensures r.Ok? ==> TrainingConsistent(r.value) && Ascending(r.value.bandOrder)
  {
    var l :- LoadMultispectralCorrected(safe, target, selected, roi, env);
    Train(l)
  }

  /** One label per feature row, each the class of its own row's green,
      red and near-infrared columns under the training set's band order. */
  predicate TrainingConsistent(t: Training)
  {
    && |t.features| == |t.labels| == t.height * t.width
    && var p := BandPositions(Some(t.bandOrder));
       forall k | 0 <= k < |t.features| ::
         && p.green < |t.features[k]| && p.red < |t.features[k]| && p.nir < |t.features[k]|
         && t.labels[k] == PixelClass(
              NormalizedDifference(t.features[k][p.nir], t.features[k][p.red]),
              NormalizedDifference(t.features[k][p.green], t.features[k][p.nir]))
  }

  /** `prepare_features` and `create_sample_labels_from_index` on a loaded
      stack, with the band order the loader returned. */
  function Train(l: Loaded): (r: Result<Training>)
    ensures r.Ok? ==> TrainingConsistent(r.value) && r.value.bandOrder == l.bandOrder
    ensures r.Ok? <==> PrepareFeatures(l.data).Ok? && CreateSampleLabelsFromIndex(l.data, Some(l.bandOrder)).Ok?
  {
    var features :- PrepareFeatures(l.data);
    var labels :- CreateSampleLabelsFromIndex(l.data, Some(l.bandOrder));
    LabelsFollowFeatures(l.data, Some(l.bandOrder));
    Ok(Training(features, labels, Height(l.data), Width(l.data), l.bandOrder))
  }

  /** With the default 10 m or 60 m request the script as written never
      reaches training: the labels step fails on the requested band order. */
  lemma DefaultRequestNeverTrains(safe: SafeFolder, target: int, roi: Option<GeoJson>, env: Env)
    requires target == 10 || target == 60
    ensures ProcessMultispectral(safe, target, None, roi, env).Err?
  {
    var r := LoadMultispectral(safe, target, None, roi, env);
    if r.Ok? {
      RequestedOrderBreaksIndices(safe, target, roi, env);
      assert CreateSampleLabelsFromIndex(r.value.data, Some(r.value.bandOrder)).Err?;
    }
  }
}

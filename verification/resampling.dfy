/** `resampling.py`: which Sentinel-2 band files are used, in which order
    they are stacked, and how the stack becomes a feature table.

    Raster and projection I/O are the fields of `Env`: reading band 1 of a
    file, reading a file's profile, projecting a vertex, and where a polygon
    falls on a raster (its crop window and the pixels it covers). The SAFE
    folder is given as its directory listings.
 */
module Resampling {
  import opened Results
  import opened Strings
  import opened Dicts
  import opened Grids
  import opened GeospatialUtils

  /** The part of a rasterio profile the pipeline reads or updates. */
  datatype Profile = Profile(crs: string, height: nat, width: nat, count: nat)

  /** The rows and columns `rasterio.mask.mask(..., crop=True)` cuts out of
      a raster for a polygon: `height` rows and `width` columns starting at
      row `row`, column `col`. */
  datatype Window = Window(row: nat, col: nat, height: nat, width: nat)

  datatype Env = Env(
    read: string -> Grid<real>,                    // rasterio.open(path).read(1)
    profileOf: string -> Profile,                  // rasterio.open(path).profile
    project: Projector,                            // pyproj Transformer
    window: (Profile, Geometry) -> Option<Window>, // the polygon's crop window; None when it misses the raster
    covers: (Profile, Geometry, nat, nat) -> bool) // raster pixel (row, col) lies inside the polygon

  /** A stacked array and the profile that goes with it. */
  datatype Stack = Stack(data: Stacked<real>, profile: Profile)

  const ShapeMismatch: string := "all input arrays must have the same shape"
  const NoOverlap: string := "Input shapes do not overlap raster."

  /** The native resolution, in metres, of each Sentinel-2 band. */
  const BandResolutions: map<string, int> := map[
    "B01" := 60, "B02" := 10, "B03" := 10, "B04" := 10, "B05" := 20,
    "B06" := 20, "B07" := 20, "B08" := 10, "B8A" := 20, "B09" := 60,
    "B10" := 60, "B11" := 20, "B12" := 20]

  /** The bands listed for each resolution when a SAFE folder is loaded. */
  const ResolutionBands: map<int, seq<string>> := map[
    10 := ["B02", "B03", "B04", "B08"],
    20 := ["B05", "B06", "B07", "B8A", "B11", "B12"],
    60 := ["B01", "B09", "B10"]]

  /** `band_resolutions.get(band) == target_resolution`. */
  predicate AtResolution(band: string, target: int)
  {
    band in BandResolutions && BandResolutions[band] == target
  }

  /** The two tables agree: a band is listed under a resolution exactly when
      that is its native resolution. */
  lemma TablesAgree(band: string, target: int)
    ensures target in ResolutionBands ==> (band in ResolutionBands[target] <==> AtResolution(band, target))
  {
  }

  lemma ListedBandsAtResolution(target: int)
    requires target in ResolutionBands
    ensures forall b | b in ResolutionBands[target] :: AtResolution(b, target)
  {
  }

  // ---------------------------------------------------------------------
  // resample_sentinel2_bands

  /** The `target_bands` comprehension: the entries whose band has exactly
      the target native resolution, in the dict's order. */
  function KeepAtResolution(d: Dict<string>, target: int): (r: Dict<string>)
    ensures forall e :: e in r <==> e in d && AtResolution(e.0, target)
    ensures Valid(d) ==> Valid(r)
    ensures IsSubsequence(r, d)
    ensures |r| == 0 <==> forall i | 0 <= i < |d| :: !AtResolution(d[i].0, target)
    ensures |r| > 0 ==> exists i | 0 <= i < |d| ::
      d[i] == r[0] && forall j | 0 <= j < i :: !AtResolution(d[j].0, target)
    decreases |d|
  {
    if |d| == 0 then []
    else
      var t := KeepAtResolution(d[1..], target);
      assert forall e :: e in d <==> e == d[0] || e in d[1..];
      assert Valid(d) ==> Valid(d[1..]) by {
        if Valid(d) {
          ValidCons(d);
        }
      }
      if AtResolution(d[0].0, target) then
        KeepHeadValid(d, t);
        assert ([d[0]] + t)[1..] == t;
        [d[0]] + t
      else
        KeepTailFirst(d, t, target);
        t
  }

  /** Prepending the head of a dict to entries drawn from its tail keeps
      the keys distinct. */
  lemma KeepHeadValid(d: Dict<string>, t: Dict<string>)
    requires |d| > 0
    requires forall e | e in t :: e in d[1..]
    requires Valid(d) ==> Valid(t)
    ensures Valid(d) ==> Valid([d[0]] + t)
  {
    if Valid(d) {
      var r := [d[0]] + t;
      assert r[1..] == t;
      ValidCons(d);
      forall j | 0 <= j < |t|
        ensures Keys(t)[j] != d[0].0
      {
        assert t[j] in d[1..];
        var m :| 0 <= m < |d[1..]| && d[1..][m] == t[j];
        assert Keys(d[1..])[m] == t[j].0;
      }
      ValidCons(r);
    }
  }

  /** When the head is dropped, the first kept entry of the tail is the
      first qualifying entry of the whole dict. */
  lemma KeepTailFirst(d: Dict<string>, t: Dict<string>, target: int)
    requires |d| > 0 && !AtResolution(d[0].0, target)
    requires |t| > 0 ==> exists i | 0 <= i < |d[1..]| ::
      d[1..][i] == t[0] && forall j | 0 <= j < i :: !AtResolution(d[1..][j].0, target)
    ensures |t| > 0 ==> exists i | 0 <= i < |d| ::
      d[i] == t[0] && forall j | 0 <= j < i :: !AtResolution(d[j].0, target)
  {
    if |t| > 0 {
      var i :| 0 <= i < |d[1..]| && d[1..][i] == t[0] && forall j | 0 <= j < i :: !AtResolution(d[1..][j].0, target);
      assert d[i + 1] == t[0];
    }
  }

  /** `target_bands[band]`, for a band known to be present. */
  function Lookup(d: Dict<string>, band: string): string
    requires band in Keys(d)
  {
    Get(d, band).value
  }

  /** The entries kept by the filter are what the full dict holds under the
      same keys. */
  lemma KeptLookup(d: Dict<string>, target: int, band: string)
    requires Valid(d) && band in Keys(KeepAtResolution(d, target))
    ensures band in Keys(d)
    ensures Lookup(KeepAtResolution(d, target), band) == Lookup(d, band)
  {
    var kept := KeepAtResolution(d, target);
    var j :| 0 <= j < |kept| && Keys(kept)[j] == band;
    GetEntry(kept, j);
    var i :| 0 <= i < |d| && d[i] == kept[j];
    GetEntry(d, i);
  }

  /** `sorted(target_bands.keys())`: the realized band order of the stack. */
  function StackOrder(d: Dict<string>, target: int): (order: seq<string>)
    requires Valid(d)
    ensures Ascending(order)
    ensures forall b :: b in order <==> b in Keys(d) && AtResolution(b, target)
    ensures |order| == |KeepAtResolution(d, target)|
  {
    var kept := KeepAtResolution(d, target);
    KeptKeys(d, target);
    var order := Sort(Keys(kept));
    assert forall b :: b in order <==> b in multiset(Keys(kept));
    assert |order| == |multiset(order)| == |multiset(Keys(kept))| == |kept|;
    order
  }

  /** The keys of the filtered dict are the keys at the target resolution. */
  lemma KeptKeys(d: Dict<string>, target: int)
    ensures forall b :: b in Keys(KeepAtResolution(d, target)) <==> b in Keys(d) && AtResolution(b, target)
  {
    forall b
      ensures b in Keys(KeepAtResolution(d, target)) <==> b in Keys(d) && AtResolution(b, target)
    {
      if b in Keys(KeepAtResolution(d, target)) {
        KeptKeyIsKey(d, target, b);
      }
      if b in Keys(d) && AtResolution(b, target) {
        KeyIsKept(d, target, b);
      }
    }
  }

  lemma KeptKeyIsKey(d: Dict<string>, target: int, b: string)
    requires b in Keys(KeepAtResolution(d, target))
    ensures b in Keys(d) && AtResolution(b, target)
  {
    var kept := KeepAtResolution(d, target);
    var j :| 0 <= j < |kept| && Keys(kept)[j] == b;
    assert kept[j] in kept;
    var i :| 0 <= i < |d| && d[i] == kept[j];
    assert Keys(d)[i] == b;
  }

  lemma KeyIsKept(d: Dict<string>, target: int, b: string)
    requires b in Keys(d) && AtResolution(b, target)
    ensures b in Keys(KeepAtResolution(d, target))
  {
    var kept := KeepAtResolution(d, target);
    var i :| 0 <= i < |d| && Keys(d)[i] == b;
    assert d[i] in d;
    var j :| 0 <= j < |kept| && kept[j] == d[i];
    assert Keys(kept)[j] == b;
  }

  /** The file of the reference band: the first entry, in the dict's order,
      at the target resolution (not the first in sorted order). */
  function ReferencePath(d: Dict<string>, target: int): string
    requires |KeepAtResolution(d, target)| > 0
  {
    KeepAtResolution(d, target)[0].1
  }

  function NoBandsError(target: int): Error
  {
    ValueError("No bands found at " + IntToString(target) + "m resolution")
  }

  /** `[rasterio.open(d[b]).read(1) for b in order]`. */
  function ReadBands(d: Dict<string>, order: seq<string>, env: Env): (bands: Cube<real>)
    requires forall b | b in order :: b in Keys(d)
    ensures |bands| == |order|
    ensures forall i | 0 <= i < |order| :: bands[i] == env.read(Lookup(d, order[i]))
  {
    seq(|order|, i requires 0 <= i < |order| => env.read(Lookup(d, order[i])))
  }

  /** Every band of the stack order is a key of the filtered dict, under the
      same file as in the full dict. */
  lemma StackOrderInKept(d: Dict<string>, target: int, env: Env)
    requires Valid(d)
    ensures forall b | b in StackOrder(d, target) :: b in Keys(KeepAtResolution(d, target)) && b in Keys(d)
    ensures ReadBands(KeepAtResolution(d, target), StackOrder(d, target), env) == ReadBands(d, StackOrder(d, target), env)
  {
    var kept := KeepAtResolution(d, target);
    var order := StackOrder(d, target);
    forall b | b in order
      ensures b in Keys(kept)
    {
      KeyIsKept(d, target, b);
    }
    forall i | 0 <= i < |order|
      ensures Lookup(kept, order[i]) == Lookup(d, order[i])
    {
      KeptLookup(d, target, order[i]);
    }
  }

  /** The "No bands found" failure is none of the failures raised once some
      band is at the target resolution. */
  lemma NoBandsIsDistinct(target: int)
    ensures NoBandsError(target) != ValueError(ShapeMismatch)
    ensures NoBandsError(target) != ValueError(NoOverlap)
  {
    assert NoBandsError(target).message[0] == 'N';
  }

  // ---------------------------------------------------------------------
  // crop_multispectral_data / crop_raster_with_geojson (geospatial_utils.py)

  /** `c` is `band` cut to the window: pixel `(y, x)` of `c` is raster pixel
      `(win.row + y, win.col + x)` when the polygon covers it and the nodata
      value 0 otherwise. */
  predicate CroppedBand(c: Grid<real>, band: Grid<real>, win: Window, profile: Profile, geom: Geometry, env: Env)
  {
    && IsGrid(c, win.height, win.width)
    && forall y, x | 0 <= y < win.height && 0 <= x < win.width ::
         c[y][x] == CroppedPixel(band, win.row + y, win.col + x, profile, geom, env)
  }

  function CroppedPixel(band: Grid<real>, row: nat, col: nat, profile: Profile, geom: Geometry, env: Env): real
  {
    if row < |band| && col < |band[row]| && env.covers(profile, geom, row, col) then band[row][col] else 0.0
  }

  /** `c` is the stack `data` cropped band by band to the window of `geom`. */
  predicate CroppedStack(c: Cube<real>, data: Cube<real>, profile: Profile, geom: Geometry, env: Env)
  {
    && env.window(profile, geom).Some?
    && |c| == |data|
    && forall b | 0 <= b < |data| :: CroppedBand(c[b], data[b], env.window(profile, geom).value, profile, geom, env)
  }

  function CropBand(band: Grid<real>, win: Window, profile: Profile, geom: Geometry, env: Env): (c: Grid<real>)
    ensures CroppedBand(c, band, win, profile, geom, env)
  {
    seq(win.height, y requires 0 <= y < win.height =>
      seq(win.width, x requires 0 <= x < win.width => CroppedPixel(band, win.row + y, win.col + x, profile, geom, env)))
  }

  /** `crop_multispectral_data(data, profile, geojson)`: the stack is written
      out with `profile` and masked by the first feature's polygon. A region
      with no feature fails the `[0]` subscript, a polygon that misses the
      raster fails the mask, and otherwise every band is cut to the same
      window and the profile takes the window's size. */
  function CropMultispectral(data: Stacked<real>, profile: Profile, g: GeoJson, env: Env): (r: Result<Stack>)
    ensures r.Ok? <==> |g.features| > 0 && env.window(profile, g.features[0].geometry).Some?
    ensures |g.features| == 0 ==> r == Err(IndexError("list index out of range"))
    ensures |g.features| > 0 && env.window(profile, g.features[0].geometry).None? ==> r == Err(ValueError(NoOverlap))
    ensures r.Ok? ==>
      && |g.features| > 0
      && CroppedStack(r.value.data, data, profile, g.features[0].geometry, env)
      && var win := env.window(profile, g.features[0].geometry).value;
         r.value.profile == profile.(height := win.height, width := win.width)
  {
    if |g.features| == 0 then Err(IndexError("list index out of range"))
    else
      var geom := g.features[0].geometry;
      match env.window(profile, geom)
      case None => Err(ValueError(NoOverlap))
      case Some(win) =>
        var cropped := seq(|data|, b requires 0 <= b < |data| => CropBand(data[b], win, profile, geom, env));
        UniformIsCube(cropped, win.height, win.width);
        Ok(Stack(cropped, profile.(height := win.height, width := win.width)))
  }

  /** A window over the whole raster whose every pixel the polygon covers
      gives the stack back unchanged. */
  lemma CropWholeRaster(data: Stacked<real>, profile: Profile, g: GeoJson, env: Env)
    requires |g.features| > 0
    requires env.window(profile, g.features[0].geometry) == Some(Window(0, 0, Height(data), Width(data)))
    requires forall row: nat, col: nat :: env.covers(profile, g.features[0].geometry, row, col)
    ensures CropMultispectral(data, profile, g, env).Ok?
    ensures CropMultispectral(data, profile, g, env).value.data == data
  {
    var c := CropMultispectral(data, profile, g, env).value.data;
    var geom := g.features[0].geometry;
    var h, w := Height(data), Width(data);
    forall b | 0 <= b < |data|
      ensures c[b] == data[b]
    {
      assert CroppedBand(c[b], data[b], Window(0, 0, h, w), profile, geom, env);
      assert IsGrid(data[b], h, w);
      forall y | 0 <= y < h
        ensures c[b][y] == data[b][y]
      {
        forall x | 0 <= x < w
          ensures c[b][y][x] == data[b][y][x]
        {
          assert c[b][y][x] == CroppedPixel(data[b], y, x, profile, geom, env);
        }
      }
    }
  }

  // ---------------------------------------------------------------------
  // resample_sentinel2_bands, after the filter

  /** The region passes the CRS check against the raster's CRS and its first
      feature's polygon overlaps the raster: what cropping needs. */
  predicate RegionCrops(roi: GeoJson, profile: Profile, env: Env)
  {
    var t := ValidateAndTransformCrs(roi, profile.crs, env.project);
    && t.Ok?
    && |t.value.features| > 0
    && env.window(profile, t.value.features[0].geometry).Some?
  }

  /** `resample_sentinel2_bands(band_paths, target_resolution, geojson)`,
      with the parsed GeoJSON document (or none) in place of its path. */
  function ResampleBands(bandPaths: Dict<string>, target: int, roi: Option<GeoJson>, env: Env): (r: Result<Stack>)
    requires Valid(bandPaths)
    ensures r == Err(NoBandsError(target)) <==>
      forall i | 0 <= i < |bandPaths| :: !AtResolution(bandPaths[i].0, target)
    ensures |KeepAtResolution(bandPaths, target)| > 0 ==>
      var order := StackOrder(bandPaths, target);
      var profile := env.profileOf(ReferencePath(bandPaths, target)).(count := |order|);
      && (r.Ok? <==> IsCube(ReadBands(bandPaths, order, env)) && (roi.Some? ==> RegionCrops(roi.value, profile, env)))
      && (!IsCube(ReadBands(bandPaths, order, env)) ==> r == Err(ValueError(ShapeMismatch)))
      && (IsCube(ReadBands(bandPaths, order, env)) && roi.Some? && |roi.value.features| == 0 ==>
            r == Err(IndexError("list index out of range")))
    ensures r.Ok? ==>
      var order := StackOrder(bandPaths, target);
      && |order| > 0
      && |r.value.data| == |order|
      && r.value.profile.count == |order|
      && r.value.profile.crs == env.profileOf(ReferencePath(bandPaths, target)).crs
    ensures r.Ok? && roi.None? ==>
      var order := StackOrder(bandPaths, target);
      forall i | 0 <= i < |order| ::
        order[i] in Keys(bandPaths) && r.value.data[i] == env.read(Lookup(bandPaths, order[i]))
    ensures r.Ok? && roi.Some? ==>
      var order := StackOrder(bandPaths, target);
      var profile := env.profileOf(ReferencePath(bandPaths, target)).(count := |order|);
      && RegionCrops(roi.value, profile, env)
      && var t := ValidateAndTransformCrs(roi.value, profile.crs, env.project).value;
         CroppedStack(r.value.data, ReadBands(bandPaths, order, env), profile, t.features[0].geometry, env)
  {
    if |KeepAtResolution(bandPaths, target)| == 0 then Err(NoBandsError(target))
    else StackKept(bandPaths, target, roi, env)
  }

  /** The part of `resample_sentinel2_bands` after the emptiness check:
      read the bands in sorted order, stack them, and crop to the region
      when one is given. */
  function StackKept(bandPaths: Dict<string>, target: int, roi: Option<GeoJson>, env: Env): (r: Result<Stack>)
    requires Valid(bandPaths) && |KeepAtResolution(bandPaths, target)| > 0
    ensures r.Err? ==> r.error != NoBandsError(target)
    ensures var order := StackOrder(bandPaths, target);
      var profile := env.profileOf(ReferencePath(bandPaths, target)).(count := |order|);
      && (r.Ok? <==> IsCube(ReadBands(bandPaths, order, env)) && (roi.Some? ==> RegionCrops(roi.value, profile, env)))
      && (!IsCube(ReadBands(bandPaths, order, env)) ==> r == Err(ValueError(ShapeMismatch)))
      && (IsCube(ReadBands(bandPaths, order, env)) && roi.Some? && |roi.value.features| == 0 ==>
            r == Err(IndexError("list index out of range")))
    ensures r.Ok? ==>
      var order := StackOrder(bandPaths, target);
      && |order| > 0
      && |r.value.data| == |order|
      && r.value.profile.count == |order|
      && r.value.profile.crs == env.profileOf(ReferencePath(bandPaths, target)).crs
    ensures r.Ok? && roi.None? ==>
      var order := StackOrder(bandPaths, target);
      forall i | 0 <= i < |order| ::
        order[i] in Keys(bandPaths) && r.value.data[i] == env.read(Lookup(bandPaths, order[i]))
    ensures r.Ok? && roi.Some? ==>
      var order := StackOrder(bandPaths, target);
      var profile := env.profileOf(ReferencePath(bandPaths, target)).(count := |order|);
      && RegionCrops(roi.value, profile, env)
      && var t := ValidateAndTransformCrs(roi.value, profile.crs, env.project).value;
         CroppedStack(r.value.data, ReadBands(bandPaths, order, env), profile, t.features[0].geometry, env)
  {
    var kept := KeepAtResolution(bandPaths, target);
    var order := StackOrder(bandPaths, target);
    StackOrderInKept(bandPaths, target, env);
    NoBandsIsDistinct(target);
    var bands := ReadBands(kept, order, env);
    if !IsCube(bands) then Err(ValueError(ShapeMismatch))
    else
      var profile := env.profileOf(kept[0].1).(count := |bands|);
      if roi.None? then Ok(Stack(bands, profile))
      else
        var g :- ValidateAndTransformCrs(roi.value, profile.crs, env.project);
        CropMultispectral(bands, profile, g, env)
  }

  // ---------------------------------------------------------------------
  // load_sentinel2_safe_folder

  /** `[band for band in s if band in available]`. */
  function FilterAvailable(s: seq<string>, available: seq<string>): (r: seq<string>)
    ensures IsSubsequence(r, s)
    ensures forall b :: multiset(r)[b] == if b in available then multiset(s)[b] else 0
    decreases |s|
  {
    if |s| == 0 then []
    else
      assert s == [s[0]] + s[1..];
      var t := FilterAvailable(s[1..], available);
      if s[0] in available then
        assert ([s[0]] + t)[1..] == t;
        [s[0]] + t
      else t
  }

  /** The band list the SAFE loader works with: the resolution's own list
      when none is given, otherwise the caller's list restricted to that
      resolution's bands, in the caller's order. An unknown resolution fails
      the table lookup in both cases. */
  function SelectBands(target: int, selected: Option<seq<string>>): (r: Result<seq<string>>)
    ensures target !in ResolutionBands ==> r == Err(KeyError(IntToString(target)))
    ensures target in ResolutionBands && selected.None? ==> r == Ok(ResolutionBands[target])
    ensures target in ResolutionBands && selected.Some? ==>
      && r.Ok?
      && IsSubsequence(r.value, selected.value)
      && forall b :: multiset(r.value)[b] == if b in ResolutionBands[target] then multiset(selected.value)[b] else 0
    ensures r.Ok? ==> forall b | b in r.value :: AtResolution(b, target)
  {
    if target !in ResolutionBands then Err(KeyError(IntToString(target)))
    else
      ListedBandsAtResolution(target);
      if selected.None? then Ok(ResolutionBands[target])
      else
        var r := FilterAvailable(selected.value, ResolutionBands[target]);
        assert forall b | b in r :: b in ResolutionBands[target] by {
          forall b | b in r
            ensures b in ResolutionBands[target]
          {
            assert multiset(r)[b] > 0;
          }
        }
        Ok(r)
  }

  /** The name fragment a band's file must contain. */
  function Delimited(band: string): string
  {
    "_" + band + "_"
  }

  /** The inner loop over `selected_bands`: the first band whose delimited
      code occurs in the file name, if any. */
  function MatchBand(name: string, selected: seq<string>): (r: Option<string>)
    ensures r.Some? <==> exists i | 0 <= i < |selected| :: Contains(name, Delimited(selected[i]))
    ensures r.Some? ==> exists i | 0 <= i < |selected| ::
      && selected[i] == r.value
      && Contains(name, Delimited(selected[i]))
      && forall j | 0 <= j < i :: !Contains(name, Delimited(selected[j]))
    decreases |selected|
  {
    if |selected| == 0 then None
    else if Contains(name, Delimited(selected[0])) then Some(selected[0])
    else
      var r := MatchBand(name, selected[1..]);
      assert forall i | 1 <= i < |selected| :: selected[1..][i - 1] == selected[i];
      assert r.Some? ==> exists i | 0 <= i < |selected| ::
        && selected[i] == r.value
        && Contains(name, Delimited(selected[i]))
        && forall j | 0 <= j < i :: !Contains(name, Delimited(selected[j])) by {
        if r.Some? {
          var i :| 0 <= i < |selected[1..]| && selected[1..][i] == r.value
            && Contains(name, Delimited(selected[1..][i]))
            && forall j | 0 <= j < i :: !Contains(name, Delimited(selected[1..][j]));
          assert selected[i + 1] == r.value;
        }
      }
      r
  }

  /** One entry of a directory listing: the file's name and its full path. */
  datatype FileRef = FileRef(name: string, path: string)

  /** The band a listed file is assigned to: only `*.jp2` files are globbed. */
  function MatchFile(f: FileRef, selected: seq<string>): Option<string>
  {
    if EndsWith(f.name, ".jp2") then MatchBand(f.name, selected) else None
  }

  /** File `i` is the last file of the listing assigned to `band`. */
  predicate IsLastMatch(files: seq<FileRef>, selected: seq<string>, band: string, i: nat)
  {
    && i < |files|
    && MatchFile(files[i], selected) == Some(band)
    && forall j | i < j < |files| :: MatchFile(files[j], selected) != Some(band)
  }

  /** The band each listed file is assigned to, file by file. */
  function Assignments(files: seq<FileRef>, selected: seq<string>): (a: seq<Option<string>>)
    ensures |a| == |files|
    ensures forall i | 0 <= i < |files| :: a[i] == MatchFile(files[i], selected)
  {
    seq(|files|, i requires 0 <= i < |files| => MatchFile(files[i], selected))
  }

  /** The outer loop over a listing: `band_paths[band] = str(band_file)` for
      each file assigned to a band, later files overwriting earlier ones.
      `matched[i]` is the band file `i` is assigned to, if any. */
  function Collect(files: seq<FileRef>, matched: seq<Option<string>>): (d: Dict<string>)
    requires |matched| == |files|
    ensures Valid(d)
    decreases |files|
  {
    if |files| == 0 then []
    else
      var n := |files| - 1;
      var d := Collect(files[..n], matched[..n]);
      if matched[n].Some? then Set(d, matched[n].value, files[n].path) else d
  }

  /** One step of the outer loop, seen through one key: the last listed
      file decides the key when it is assigned to it, and otherwise the
      earlier files do. */
  lemma CollectStep(files: seq<FileRef>, matched: seq<Option<string>>, band: string)
    requires |matched| == |files| > 0
    ensures var n := |files| - 1;
      Get(Collect(files, matched), band) ==
        if matched[n] == Some(band) then Some(files[n].path)
        else Get(Collect(files[..n], matched[..n]), band)
  {
    var n := |files| - 1;
    var before := Collect(files[..n], matched[..n]);
    assert Collect(files, matched) == if matched[n].Some? then Set(before, matched[n].value, files[n].path) else before;
  }

  /** A key is present exactly when some file is assigned to it. */
  lemma {:induction false} CollectPresent(files: seq<FileRef>, matched: seq<Option<string>>, band: string)
    requires |matched| == |files|
    ensures Get(Collect(files, matched), band).Some? <==> Some(band) in matched
    decreases |files|
  {
    if |files| == 0 {
      assert Collect(files, matched) == [];
    } else {
      var n := |files| - 1;
      CollectStep(files, matched, band);
      if matched[n] == Some(band) {
        assert matched[n] in matched;
      } else {
        CollectPresent(files[..n], matched[..n], band);
        assert matched == matched[..n] + [matched[n]];
      }
    }
  }

  /** A key holds the path of the last file assigned to it. */
  lemma {:induction false} CollectLast(files: seq<FileRef>, matched: seq<Option<string>>, band: string, i: nat)
    requires |matched| == |files| && i < |files| && matched[i] == Some(band)
    requires forall j | i < j < |files| :: matched[j] != Some(band)
    ensures Get(Collect(files, matched), band) == Some(files[i].path)
    decreases |files|
  {
    var n := |files| - 1;
    CollectStep(files, matched, band);
    if i < n {
      CollectLast(files[..n], matched[..n], band, i);
    }
  }

  /** The dict `find_band_paths` builds from one listing. */
  function CollectBandPaths(files: seq<FileRef>, selected: seq<string>): (d: Dict<string>)
    ensures Valid(d)
    ensures forall b | Get(d, b).Some? :: b in selected
  {
    var matched := Assignments(files, selected);
    forall b | Get(Collect(files, matched), b).Some?
      ensures b in selected
    {
      CollectPresent(files, matched, b);
      var i :| 0 <= i < |matched| && matched[i] == Some(b);
    }
    Collect(files, matched)
  }

  /** A band is in the collected dict exactly when some listed file is
      assigned to it. */
  lemma CollectBandPathsPresent(files: seq<FileRef>, selected: seq<string>, band: string)
    ensures Get(CollectBandPaths(files, selected), band).None? <==>
      forall i | 0 <= i < |files| :: MatchFile(files[i], selected) != Some(band)
  {
    var matched := Assignments(files, selected);
    CollectPresent(files, matched, band);
    if Some(band) in matched {
      var i :| 0 <= i < |matched| && matched[i] == Some(band);
    }
  }

  /** A band assigned to some listed file holds the path of the last such
      file: later files overwrite earlier ones. */
  lemma CollectBandPathsLastMatch(files: seq<FileRef>, selected: seq<string>, band: string, i: nat)
    requires IsLastMatch(files, selected, band, i)
    ensures Get(CollectBandPaths(files, selected), band) == Some(files[i].path)
  {
    CollectLast(files, Assignments(files, selected), band, i);
  }

  /** The image-data directory of a granule: its sub-folders' listings by
      name, and the listing of the files directly inside it. */
  datatype ImgData = ImgData(subfolders: map<string, seq<FileRef>>, files: seq<FileRef>)

  /** A granule directory; `IMG_DATA` may be missing. */
  datatype Granule = Granule(imgData: Option<ImgData>)

  /** The entries of a SAFE folder's `GRANULE` directory, in glob order. */
  datatype SafeFolder = SafeFolder(granules: seq<Granule>)

  function ResolutionFolder(target: int): string
  {
    "R" + IntToString(target) + "m"
  }

  /** The listing the band search walks: the `R{target}m` sub-folder when an
      `R10m` sub-folder marks the per-resolution (L2A) layout, nothing when
      that sub-folder is missing, and `IMG_DATA` itself otherwise (L1C). */
  function SearchedFiles(img: Option<ImgData>, target: int): seq<FileRef>
  {
    match img
    case None => []
    case Some(d) =>
      if "R10m" in d.subfolders then
        if ResolutionFolder(target) in d.subfolders then d.subfolders[ResolutionFolder(target)] else []
      else d.files
  }

  /** Some file of the listing is assigned to `band`. */
  ghost predicate Matched(files: seq<FileRef>, selected: seq<string>, band: string)
  {
    exists i | 0 <= i < |files| :: MatchFile(files[i], selected) == Some(band)
  }

  /** The bands of `d` are exactly the bands some file of the listing is
      assigned to, each holding the last such file. */
  ghost predicate FoundIn(d: Dict<string>, files: seq<FileRef>, selected: seq<string>)
  {
    && (forall b {:trigger Matched(files, selected, b)} :: Get(d, b).Some? <==> Matched(files, selected, b))
    && forall b, i: nat | IsLastMatch(files, selected, b, i) :: Get(d, b) == Some(files[i].path)
  }

  lemma CollectBandPathsFound(files: seq<FileRef>, selected: seq<string>)
    ensures FoundIn(CollectBandPaths(files, selected), files, selected)
  {
    forall b
      ensures Get(CollectBandPaths(files, selected), b).Some? <==> Matched(files, selected, b)
    {
      CollectBandPathsPresent(files, selected, b);
    }
    forall b, i: nat | IsLastMatch(files, selected, b, i)
      ensures Get(CollectBandPaths(files, selected), b) == Some(files[i].path)
    {
      CollectBandPathsLastMatch(files, selected, b, i);
    }
  }

  /** The `band_paths` dict built from a granule's image data: in the
      per-resolution layout only the `R{target}m` listing is searched (and
      nothing when it is missing), otherwise the files of `IMG_DATA`. */
  function FindBandPaths(img: Option<ImgData>, target: int, selected: seq<string>): (d: Dict<string>)
    ensures Valid(d)
    ensures forall b | Get(d, b).Some? :: b in selected
    ensures img.None? ==> d == []
    ensures img.Some? && "R10m" in img.value.subfolders && ResolutionFolder(target) !in img.value.subfolders ==> d == []
    ensures img.Some? && "R10m" in img.value.subfolders && ResolutionFolder(target) in img.value.subfolders ==>
      FoundIn(d, img.value.subfolders[ResolutionFolder(target)], selected)
    ensures img.Some? && "R10m" !in img.value.subfolders ==> FoundIn(d, img.value.files, selected)
  {
    var files := SearchedFiles(img, target);
    CollectBandPathsFound(files, selected);
    CollectBandPaths(files, selected)
  }

  /** A dict whose every band is at the target resolution loses nothing to
      the filter: it is empty exactly when nothing is kept. */
  lemma AllAtResolutionKept(d: Dict<string>, target: int)
    requires Valid(d)
    requires forall b | Get(d, b).Some? :: AtResolution(b, target)
    ensures |KeepAtResolution(d, target)| == 0 <==> d == []
  {
  }

  /** How a SAFE folder load with a known resolution and a granule ends: it
      fails with "No bands found" exactly when no selected band file is
      found, and without a region, once some file is found, it succeeds
      exactly when the found rasters have one shape. */
  predicate LoadDecided<T>(r: Result<T>, safe: SafeFolder, target: int, selected: Option<seq<string>>, roi: Option<GeoJson>, env: Env)
    requires target in ResolutionBands && |safe.granules| > 0
  {
    var paths := FindBandPaths(safe.granules[0].imgData, target, SelectBands(target, selected).value);
    && (r == Err(NoBandsError(target)) <==> paths == [])
    && (paths != [] && roi.None? ==> (r.Ok? <==> IsCube(ReadBands(paths, StackOrder(paths, target), env))))
  }

  /** `load_sentinel2_safe_folder(safe_folder, target_resolution, selected_bands, geojson)`. */
  function LoadSafeFolder(safe: SafeFolder, target: int, selected: Option<seq<string>>, roi: Option<GeoJson>, env: Env): (r: Result<Stack>)
    ensures target !in ResolutionBands ==> r == Err(KeyError(IntToString(target)))
    ensures target in ResolutionBands && |safe.granules| == 0 ==> r == Err(StopIteration)
    ensures r.Ok? ==> SelectBands(target, selected).Ok? && |safe.granules| > 0
    ensures target in ResolutionBands && |safe.granules| > 0 ==> LoadDecided(r, safe, target, selected, roi, env)
    ensures r.Ok? ==>
      var bands := SelectBands(target, selected).value;
      var paths := FindBandPaths(safe.granules[0].imgData, target, bands);
      var order := StackOrder(paths, target);
      && r.value.profile.count == |order|
      && (forall b | b in order :: b in bands && AtResolution(b, target))
      && (roi.None? ==>
            && |r.value.data| == |order|
            && forall i | 0 <= i < |order| :: order[i] in Keys(paths) && r.value.data[i] == env.read(Lookup(paths, order[i])))
  {
    var bands :- SelectBands(target, selected);
    if |safe.granules| == 0 then Err(StopIteration)
    else
      var paths := FindBandPaths(safe.granules[0].imgData, target, bands);
      AllAtResolutionKept(paths, target);
      ResampleBands(paths, target, roi, env)
  }

  /** The realized band order of a successful `LoadSafeFolder`: the sorted
      codes of the bands that were found and stacked. */
  function LoadedOrder(safe: SafeFolder, target: int, selected: Option<seq<string>>): (order: seq<string>)
    requires SelectBands(target, selected).Ok? && |safe.granules| > 0
    ensures Ascending(order)
  {
    var bands := SelectBands(target, selected).value;
    StackOrder(FindBandPaths(safe.granules[0].imgData, target, bands), target)
  }

  // ---------------------------------------------------------------------
  // create_common_resolution_dataset

  /** `band_data[target_bands]`: NumPy fancy indexing along the band axis,
      negative indices counting from the end. */
  function PickBands(data: Cube<real>, indices: seq<int>): (r: Result<Cube<real>>)
    ensures r.Ok? <==> forall j | 0 <= j < |indices| :: -|data| <= indices[j] < |data|
    ensures r.Err? ==> r.error.IndexError?
    ensures r.Ok? ==> |r.value| == |indices|
    ensures r.Ok? ==> forall j | 0 <= j < |indices| ::
        r.value[j] == data[if indices[j] < 0 then indices[j] + |data| else indices[j]]
    decreases |indices|
  {
    if |indices| == 0 then Ok([])
    else
      var i := indices[0];
      if !(-|data| <= i < |data|) then
        Err(OutOfBounds(i, |data|))
      else
        var rest :- PickBands(data, indices[1..]);
        assert forall j | 1 <= j < |indices| :: indices[1..][j - 1] == indices[j];
        Ok([data[if i < 0 then i + |data| else i]] + rest)
  }

  /** The stack `create_common_resolution_dataset` flattens: the whole
      stack, or the bands the index list picks. */
  function SelectedBands(data: Cube<real>, targetBands: Option<seq<int>>): Result<Cube<real>>
  {
    if targetBands.None? then Ok(data) else PickBands(data, targetBands.value)
  }

  /** `create_common_resolution_dataset(band_data, target_bands)`: the
      (optionally re-indexed) stack as a table with one row per pixel,
      row-major, and one column per selected band. Reshaping a stack with no
      band fails in NumPy. */
  function CommonResolutionDataset(data: Cube<real>, targetBands: Option<seq<int>>): (r: Result<seq<seq<real>>>)
    requires IsCube(data)
    ensures SelectedBands(data, targetBands).Err? ==> r == SelectedBands(data, targetBands).PropagateFailure()
    ensures SelectedBands(data, targetBands) == Ok([]) ==>
      r == Err(ValueError("cannot reshape array of size 0 into shape (0,newaxis)"))
    ensures SelectedBands(data, targetBands).Ok? && |SelectedBands(data, targetBands).value| > 0 ==> r.Ok?
    ensures r.Ok? ==>
      var picked := SelectedBands(data, targetBands).value;
      && |picked| > 0
      && IsCube(picked) && Height(picked) == Height(data) && Width(picked) == Width(data)
      && TableOf(r.value, picked)
  {
    var picked :- SelectedBands(data, targetBands);
    if |picked| == 0 then Err(ValueError("cannot reshape array of size 0 into shape (0,newaxis)"))
    else
      assert picked[0] in data;
      assert Height(picked) == Height(data) && Width(picked) == Width(data);
      assert forall j | 0 <= j < |picked| :: picked[j] in data;
      Ok(FeatureTable(picked))
  }
}

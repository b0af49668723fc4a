/** The polygon side of `geospatial_utils.py`: reading the declared CRS of a
    GeoJSON document, re-projecting the first ring of every feature when that
    CRS differs from a target, and the bounding box of the region of interest.

    The projection itself (pyproj's `Transformer`) is the parameter `project`:
    `project(source, target, p)` is where `Transformer.from_crs(source, target,
    always_xy=True).transform(p.x, p.y)` sends the vertex `p`.
 */
module GeospatialUtils {
  import opened Results

  datatype Position = Position(x: real, y: real)

  type Ring = seq<Position>

  /** A polygon geometry: its `coordinates` member is a list of rings, the
      first one being the exterior. */
  datatype Geometry = Geometry(coordinates: seq<Ring>)

  datatype Feature = Feature(geometry: Geometry)

  /** The legacy GeoJSON `crs` member, `{"type": ..., "properties": {"name": ...}}`,
      with each level possibly missing. */
  datatype CrsProperties = CrsProperties(name: Option<string>)
  datatype CrsMember = CrsMember(kind: string, properties: Option<CrsProperties>)

  datatype GeoJson = GeoJson(crs: Option<CrsMember>, features: seq<Feature>)

  type Projector = (string, string, Position) -> Position

  const DefaultCrs: string := "EPSG:4326"

  /** `geojson.get("crs", {}).get("properties", {}).get("name", "EPSG:4326")`. */
  function DeclaredCrs(g: GeoJson): string
  {
    match g.crs
    case None => DefaultCrs
    case Some(m) =>
      match m.properties
      case None => DefaultCrs
      case Some(p) =>
        match p.name
        case None => DefaultCrs
        case Some(n) => n
  }

  /** The document's CRS member after a transformation. */
  function NamedCrs(name: string): CrsMember
  {
    CrsMember("name", Some(CrsProperties(Some(name))))
  }

  /** `feature["geometry"]["coordinates"] = [transformed_coords]`: the first
      ring mapped vertex by vertex; any later ring is dropped. A geometry with
      no ring fails the `[0]` subscript. */
  function TransformFeature(f: Feature, source: string, target: string, project: Projector): (r: Result<Feature>)
    ensures r.Err? <==> |f.geometry.coordinates| == 0
    ensures r.Err? ==> r.error == IndexError("list index out of range")
    ensures r.Ok? ==>
      && |r.value.geometry.coordinates| == 1
      && |r.value.geometry.coordinates[0]| == |f.geometry.coordinates[0]|
      && forall i | 0 <= i < |f.geometry.coordinates[0]| ::
           r.value.geometry.coordinates[0][i] == project(source, target, f.geometry.coordinates[0][i])
  {
    if |f.geometry.coordinates| == 0 then Err(IndexError("list index out of range"))
    else
      var ring := f.geometry.coordinates[0];
      Ok(Feature(Geometry([seq(|ring|, i requires 0 <= i < |ring| => project(source, target, ring[i]))])))
  }

  /** The loop over `geojson["features"]`, in order, stopping at the first
      feature that fails. */
  function TransformFeatures(fs: seq<Feature>, source: string, target: string, project: Projector): (r: Result<seq<Feature>>)
    ensures r.Err? <==> exists k | 0 <= k < |fs| :: |fs[k].geometry.coordinates| == 0
    ensures r.Err? ==> r.error == IndexError("list index out of range")
    ensures r.Ok? ==> |r.value| == |fs|
    ensures r.Ok? ==>
      forall k | 0 <= k < |fs| :: Ok(r.value[k]) == TransformFeature(fs[k], source, target, project)
    decreases |fs|
  {
    if |fs| == 0 then Ok([])
    else
      var head :- TransformFeature(fs[0], source, target, project);
      var tail :- TransformFeatures(fs[1..], source, target, project);
      assert forall k | 1 <= k < |fs| :: fs[1..][k - 1] == fs[k];
      Ok([head] + tail)
  }

  /** `validate_and_transform_crs(geojson, target_crs)`. */
  function ValidateAndTransformCrs(g: GeoJson, target: string, project: Projector): (r: Result<GeoJson>)
    ensures DeclaredCrs(g) == target ==> r == Ok(g)
    ensures r.Err? ==> r.error == IndexError("list index out of range")
    ensures DeclaredCrs(g) != target ==>
      (r.Err? <==> exists k | 0 <= k < |g.features| :: |g.features[k].geometry.coordinates| == 0)
    ensures r.Ok? ==> DeclaredCrs(r.value) == target && |r.value.features| == |g.features|
    ensures DeclaredCrs(g) != target && r.Ok? ==>
      forall k | 0 <= k < |g.features| ::
        var before := g.features[k].geometry.coordinates;
        var after := r.value.features[k].geometry.coordinates;
        && |before| > 0
        && |after| == 1
        && |after[0]| == |before[0]|
        && forall i | 0 <= i < |before[0]| :: after[0][i] == project(DeclaredCrs(g), target, before[0][i])
  {
    var source := DeclaredCrs(g);
    if source == target then Ok(g)
    else
      var fs :- TransformFeatures(g.features, source, target, project);
      Ok(GeoJson(Some(NamedCrs(target)), fs))
  }

  /** Transforming a ring vertex by vertex keeps a closed ring closed. */
  lemma TransformKeepsRingClosed(g: GeoJson, target: string, project: Projector, k: nat)
    requires k < |g.features|
    requires var rings := g.features[k].geometry.coordinates;
      |rings| > 0 && |rings[0]| > 0 && rings[0][0] == rings[0][|rings[0]| - 1]
    requires ValidateAndTransformCrs(g, target, project).Ok?
    ensures var after := ValidateAndTransformCrs(g, target, project).value.features[k].geometry.coordinates;
      |after| > 0 && |after[0]| > 0 && after[0][0] == after[0][|after[0]| - 1]
  {
    var r := ValidateAndTransformCrs(g, target, project);
    if DeclaredCrs(g) != target {
      var ring := g.features[k].geometry.coordinates[0];
      var after := r.value.features[k].geometry.coordinates[0];
      assert after[0] == project(DeclaredCrs(g), target, ring[0]);
      assert after[|after| - 1] == project(DeclaredCrs(g), target, ring[|ring| - 1]);
    }
  }

  /** A second call with the same target changes nothing. */
  lemma TransformIdempotent(g: GeoJson, target: string, project: Projector)
    requires ValidateAndTransformCrs(g, target, project).Ok?
    ensures var once := ValidateAndTransformCrs(g, target, project).value;
      ValidateAndTransformCrs(once, target, project) == Ok(once)
  {
  }

  datatype Bounds = Bounds(minx: real, miny: real, maxx: real, maxy: real)

  /** The vertex lies inside the box (edges included). */
  predicate Encloses(b: Bounds, p: Position)
  {
    b.minx <= p.x <= b.maxx && b.miny <= p.y <= b.maxy
  }

  /** `get_roi_bounds(geojson)`: the bounding box of the first ring of the
      first feature. A document without a feature or without a ring fails a
      subscript; an empty ring makes `min()` fail. */
  method RoiBounds(g: GeoJson) returns (r: Result<Bounds>)
    ensures |g.features| == 0 || |g.features[0].geometry.coordinates| == 0 ==>
      r == Err(IndexError("list index out of range"))
    ensures (|g.features| > 0 && |g.features[0].geometry.coordinates| > 0 &&
             |g.features[0].geometry.coordinates[0]| == 0) ==>
      r == Err(ValueError("min() arg is an empty sequence"))
    ensures r.Ok? <==>
      |g.features| > 0 && |g.features[0].geometry.coordinates| > 0 &&
      |g.features[0].geometry.coordinates[0]| > 0
    ensures r.Ok? ==>
      var ring := g.features[0].geometry.coordinates[0];
      && (forall i | 0 <= i < |ring| :: Encloses(r.value, ring[i]))
      && (exists i | 0 <= i < |ring| :: ring[i].x == r.value.minx)
      && (exists i | 0 <= i < |ring| :: ring[i].y == r.value.miny)
      && (exists i | 0 <= i < |ring| :: ring[i].x == r.value.maxx)
      && (exists i | 0 <= i < |ring| :: ring[i].y == r.value.maxy)
  {
    if |g.features| == 0 || |g.features[0].geometry.coordinates| == 0 {
      return Err(IndexError("list index out of range"));
    }
    var ring := g.features[0].geometry.coordinates[0];
    if |ring| == 0 {
      return Err(ValueError("min() arg is an empty sequence"));
    }
    var b := Bounds(ring[0].x, ring[0].y, ring[0].x, ring[0].y);
    var n := 1;
    ghost var ixMinX, ixMinY, ixMaxX, ixMaxY := 0, 0, 0, 0;
    while n < |ring|
      invariant 1 <= n <= |ring|
      invariant forall i | 0 <= i < n :: Encloses(b, ring[i])
      invariant ixMinX < n && ring[ixMinX].x == b.minx
      invariant ixMinY < n && ring[ixMinY].y == b.miny
      invariant ixMaxX < n && ring[ixMaxX].x == b.maxx
      invariant ixMaxY < n && ring[ixMaxY].y == b.maxy
    {
      var p := ring[n];
      if p.x < b.minx {
        b, ixMinX := b.(minx := p.x), n;
      }
      if p.y < b.miny {
        b, ixMinY := b.(miny := p.y), n;
      }
      if p.x > b.maxx {
        b, ixMaxX := b.(maxx := p.x), n;
      }
      if p.y > b.maxy {
        b, ixMaxY := b.(maxy := p.y), n;
      }
      n := n + 1;
    }
    return Ok(b);
  }
}

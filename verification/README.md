# Sentinel-2 band bookkeeping, in Dafny

This project models the band bookkeeping and per-pixel arithmetic of the
`sentinel2-classifier` pipeline. The pipeline takes a Sentinel-2 SAFE
folder and picks the band files at one resolution. It stacks them in
sorted band order and optionally crops them to a GeoJSON region. From
the stack it builds a pixel-by-band feature table, then computes NDVI and
NDWI and derives training labels from thresholds on them.

Modules follow the Python files:

| file | module | models |
|---|---|---|
| `results.dfy` | `Results` | `Option`, and `Result` whose errors are the Python exceptions raised (`ValueError`, `KeyError`, `IndexError`, `StopIteration`) |
| `strings.dfy` | `Strings` | substring test, `endswith`, Python's string order and `sorted`, `str(int)` |
| `dicts.dfy` | `Dicts` | an insertion-ordered Python `dict` with string keys |
| `grids.dfy` | `Grids` | bands and stacks as nested sequences; `flatten`, `reshape`, the `(bands, -1).T` feature table |
| `geospatial_utils.dfy` | `GeospatialUtils` | `validate_and_transform_crs`, `get_roi_bounds` |
| `resampling.dfy` | `Resampling` | `resample_sentinel2_bands`, `load_sentinel2_safe_folder`, `create_common_resolution_dataset`, and the crop it calls (`crop_multispectral_data`, `crop_raster_with_geojson`), which needs the raster environment |
| `indices.dfy` | `Indices` | `calculate_ndvi`, `calculate_ndwi`, `calculate_indices_from_sentinel2` |
| `data_loader.dfy` | `DataLoader` | `load_sentinel2_multispectral`, `prepare_features`, both label makers, and the flow of `process_multispectral.py` up to training |

Everything outside the process is a parameter:
- The raster reader, the profile reader, the projection, and where a
  polygon falls on a raster (the window `rasterio.mask` crops to, and the
  pixels the polygon covers) are the fields of `Resampling.Env`.
- A SAFE folder is given as its directory listings (`SafeFolder`,
  `Granule`, `ImgData`, `FileRef`), in the order the file system lists
  them.
- A GeoJSON document is given already parsed (`GeospatialUtils.GeoJson`).

Pixel values are `real`.

## Model

| member | source | states |
|---|---|---|
| `Strings.LessTotal` | src/sentinel2_classifier/resampling.py:58 | two distinct band codes are always ordered one way or the other, so sorting distinct dict keys has exactly one answer |
| `Strings.Sort` | src/sentinel2_classifier/resampling.py:58 | `sorted` of distinct keys is strictly ascending and a permutation of its input |
| `Dicts.Get` | src/sentinel2_classifier/resampling.py:59 | looking up a key gives nothing exactly when the key is absent, otherwise the value of its entry |
| `Dicts.Set` | src/sentinel2_classifier/resampling.py:122 | assignment keeps keys distinct, maps the key to the new value and leaves every other key's value alone; an existing key keeps its position and a new key is appended |
| `GeospatialUtils.TransformFeature` | src/sentinel2_classifier/geospatial_utils.py:35-40 | a feature with no ring fails the `[0]` subscript; otherwise the result has one ring, as long as the old first ring, with vertex i projected from vertex i |
| `GeospatialUtils.TransformFeatures` | src/sentinel2_classifier/geospatial_utils.py:34-40 | the loop fails exactly when some feature has no ring; otherwise it keeps the feature count and transforms each feature on its own |
| `GeospatialUtils.ValidateAndTransformCrs` | src/sentinel2_classifier/geospatial_utils.py:20-45 | a document already in the target CRS (a missing CRS counting as EPSG:4326) is returned unchanged; otherwise it fails exactly when some feature has no ring, and on success declares the target CRS, keeps the feature count and leaves each feature with its first ring projected vertex by vertex |
| `GeospatialUtils.TransformKeepsRingClosed` | src/sentinel2_classifier/geospatial_utils.py:34-40 | a closed first ring (first vertex equal to last) is still closed after the transformation |
| `GeospatialUtils.TransformIdempotent` | src/sentinel2_classifier/geospatial_utils.py:26-45 | transforming an already transformed document to the same target changes nothing |
| `GeospatialUtils.RoiBounds` | src/sentinel2_classifier/geospatial_utils.py:101-109 | a missing feature or ring is an `IndexError` and an empty ring the `min()` `ValueError`; otherwise the box encloses every vertex of the first ring and each of its four sides is attained by some vertex |
| `Resampling.TablesAgree` | src/sentinel2_classifier/resampling.py:92-96 | the per-resolution band lists agree with the band-resolution table: a band is listed under a resolution exactly when that is its native resolution |
| `Resampling.KeepAtResolution` | src/sentinel2_classifier/resampling.py:41-45 | an entry is kept exactly when the table gives its band the target resolution (codes missing from the table such as AOT never are); the kept entries are a subsequence of the dict, so dict order is kept, and the first kept entry is the first qualifying one |
| `Resampling.KeptLookup` | src/sentinel2_classifier/resampling.py:41-45 | a kept band maps to the same file in the filtered dict as in the full one |
| `Resampling.StackOrder` | src/sentinel2_classifier/resampling.py:58 | the stacking order is strictly ascending and holds exactly the bands of the dict at the target resolution |
| `Resampling.StackOrderInKept` | src/sentinel2_classifier/resampling.py:58-60 | every band of the stacking order has a file, and reading through the filtered dict gives the same rasters as through the full dict |
| `Resampling.ResampleBands` | src/sentinel2_classifier/resampling.py:16-79 | fails with "No bands found at {r}m resolution" exactly when no band is at the target resolution. Otherwise it succeeds exactly when the band rasters, read in ascending band order, have one shape and, with a region, the region passes the CRS check and its first polygon overlaps the raster. Unequal shapes give `np.stack`'s `ValueError`, and a region with no feature gives an `IndexError`. On success the stack has one band per band at the resolution, matching the profile's count, and the CRS is the reference file's. Without a region band i is the raster of the i-th band; with one, band i is that raster cropped to the polygon's window |
| `Resampling.StackKept` | src/sentinel2_classifier/resampling.py:50-79 | once some band is at the target resolution, a failure is never the "No bands found" error. Success, the shape and region failures, the band count and the rasters, cropped or not, are as for `ResampleBands` |
| `Resampling.FilterAvailable` | src/sentinel2_classifier/resampling.py:101-103 | the filtered list keeps the caller's order and keeps each band exactly as often as it occurs when it is available, never otherwise |
| `Resampling.SelectBands` | src/sentinel2_classifier/resampling.py:98-103 | an unknown resolution is a `KeyError`; no band list gives that resolution's list; an explicit list is filtered to that resolution's bands in the caller's order |
| `Resampling.MatchBand` | src/sentinel2_classifier/resampling.py:120-123 | a file name is assigned to a band exactly when some selected band's `_{band}_` occurs in it, and then to the first such band of the selection |
| `Resampling.CollectPresent` | src/sentinel2_classifier/resampling.py:119-129 | in the loop over a listing, a band ends up a key exactly when some file was assigned to it |
| `Resampling.CollectLast` | src/sentinel2_classifier/resampling.py:119-129 | in the loop over a listing, a band holds the path of the last file assigned to it |
| `Resampling.CollectBandPaths` | src/sentinel2_classifier/resampling.py:119-129 | the built dict has distinct keys and only selected bands as keys |
| `Resampling.CollectBandPathsPresent` | src/sentinel2_classifier/resampling.py:119-129 | a band is a key of the built dict exactly when some listed `.jp2` file is assigned to it |
| `Resampling.CollectBandPathsLastMatch` | src/sentinel2_classifier/resampling.py:119-129 | when several files are assigned to a band, the dict holds the path of the last of them in listing order |
| `Resampling.FindBandPaths` | src/sentinel2_classifier/resampling.py:107-129 | in the per-resolution layout (an `R10m` folder present) only the `R{r}m` listing is searched, and a missing `R{r}m` folder gives an empty dict. Otherwise the files of `IMG_DATA` are searched, and a missing `IMG_DATA` gives an empty dict. A band is a key exactly when some file of the searched listing is assigned to it, and it holds the last such file. Keys are distinct and selected |
| `Resampling.LoadSafeFolder` | src/sentinel2_classifier/resampling.py:82-131 | an unknown resolution is a `KeyError` and an empty `GRANULE` folder a `StopIteration`. Otherwise it fails with "No bands found" exactly when no selected band file is found; without a region, once some file is found it succeeds exactly when the found rasters have one shape. On success every stacked band was selected and is native to the resolution, and the band count equals the number stacked. Without a region, band i is the raster of the i-th band in ascending order |
| `Resampling.LoadedOrder` | src/sentinel2_classifier/resampling.py:58 | the bands a SAFE folder load stacks are in strictly ascending order |
| `Resampling.PickBands` | src/sentinel2_classifier/resampling.py:138-139 | fancy indexing succeeds exactly when every index is in range (negative ones counting from the end), fails with an `IndexError` otherwise, and picks band `i` (or `i + B` when negative) for each index in turn |
| `Resampling.CommonResolutionDataset` | src/sentinel2_classifier/resampling.py:134-142 | index errors propagate and an empty band selection cannot be reshaped; a non-empty selection always succeeds; on success there are H·W rows with one column per selected band, and row y·W+x, column j is pixel (y, x) of the j-th selected band |
| `Resampling.CropMultispectral` | src/sentinel2_classifier/geospatial_utils.py:48-98 | a region with no feature fails the `[0]` subscript with an `IndexError`, and a polygon that misses the raster fails the mask with a `ValueError`. Otherwise every band is cut to the same window, with the nodata value 0 outside the polygon. The band count is kept, and the profile takes the window's height and width |
| `Resampling.CropWholeRaster` | src/sentinel2_classifier/geospatial_utils.py:54-59 | a window over the whole raster whose every pixel the polygon covers gives back the stack unchanged |
| `Resampling.AllAtResolutionKept` | src/sentinel2_classifier/resampling.py:41-48 | a dict whose bands are all native to the target resolution (as the SAFE loader's always are) fails the emptiness check exactly when it is empty |
| `Grids.FlattenIndex` | src/sentinel2_classifier/data_loader.py:107 | flattening an H-by-W grid gives H·W entries with pixel (y, x) at position y·W+x |
| `Grids.UnflattenFlatten` | process_multispectral.py:67-68 | reshaping a flattened grid to its shape gives the grid back |
| `Grids.FlattenUnflatten` | process_multispectral.py:67-68 | reshaping a vector of length H·W gives an H-by-W grid whose flattening is the vector |
| `Grids.FeatureTable` | src/sentinel2_classifier/resampling.py:141-142 | `reshape(bands, -1).T` has H·W rows of B entries, with row y·W+x, column b equal to band b at (y, x) |
| `Grids.FeatureTableColumnRoundTrip` | process_multispectral.py:67-68 | reshaping one column of the feature table to (height, width) gives back that band |
| `Indices.NormalizedDifference` | src/sentinel2_classifier/indices.py:10-15 | where the sum is zero the result is exactly zero, otherwise result times sum equals the difference |
| `Indices.NormalizedDifferenceBounds` | src/sentinel2_classifier/indices.py:10-25 | for non-negative inputs the normalized difference lies in [-1, 1] |
| `Indices.NormalizedDifferenceSwap` | src/sentinel2_classifier/indices.py:8-25 | swapping the two inputs negates the normalized difference |
| `Indices.Ndvi` | src/sentinel2_classifier/indices.py:8-15 | NDVI keeps the shape and at each pixel is zero where nir+red is zero, otherwise (nir−red)/(nir+red) |
| `Indices.Ndwi` | src/sentinel2_classifier/indices.py:18-25 | NDWI keeps the shape and at each pixel is zero where green+nir is zero, otherwise (green−nir)/(green+nir) |
| `Indices.NdwiIsNegatedNdvi` | src/sentinel2_classifier/indices.py:8-25 | `calculate_ndwi(a, b)` is the pixelwise negation of `calculate_ndvi(a, b)` |
| `Indices.IndicesBounded` | src/sentinel2_classifier/indices.py:8-25 | on non-negative bands both indices stay within [-1, 1] at every pixel |
| `Indices.IndexOf` | src/sentinel2_classifier/indices.py:51-53 | `list.index` fails exactly when the code is absent, and otherwise gives its first position |
| `Indices.BandPositions` | src/sentinel2_classifier/indices.py:32-60 | with B03, B04 and B08 all in the band order (the default list when none is given), green, red and NIR are their first positions; if any is missing all three fall back to 1, 2 and 3 |
| `Indices.DefaultPositions` | src/sentinel2_classifier/indices.py:32-53 | with no band order the positions are green 1, red 2, NIR 6 |
| `Indices.IndicesAt` | src/sentinel2_classifier/indices.py:62-70 | with the positions known, the subscripts fail with an `IndexError` exactly when a position is past the last band; otherwise NDVI and NDWI have the stack's shape and are the normalized differences of the bands at those positions, pixel by pixel |
| `Indices.CalculateIndices` | src/sentinel2_classifier/indices.py:28-70 | fails with an `IndexError` exactly when a looked-up position is past the last band; otherwise NDVI and NDWI have the stack's shape and are the normalized differences of the bands at those positions, pixel by pixel |
| `DataLoader.StackedOrder` | src/sentinel2_classifier/data_loader.py:69-71 | the bands stacked for a request are in strictly ascending order, were requested, have a file and are native to the resolution |
| `DataLoader.LoadMultispectral` | src/sentinel2_classifier/data_loader.py:21-72 | as written: an unknown resolution is a `KeyError` and an empty `GRANULE` folder a `StopIteration`. Otherwise it fails with "No bands found" exactly when no requested band file is found; without a region, once some file is found it succeeds exactly when the found rasters have one shape. The band order returned is the requested list (the resolution's default when none is given). The band count and the number of stacked bands, with or without a region, follow the ascending stacked order, and so do the rasters without a region |
| `DataLoader.RequestedPositions` | src/sentinel2_classifier/indices.py:50-60 | the 10 m default request puts green, red and NIR at 2, 3, 4; the 60 m one lacks B08 and falls back to 1, 2, 3 |
| `DataLoader.DefaultStackBound` | src/sentinel2_classifier/data_loader.py:29-71 | at most four bands of the 10 m default request and two of the 60 m one can be stacked |
| `DataLoader.RequestedOrderBreaksIndices` | src/sentinel2_classifier/data_loader.py:66-72 | with the default 10 m or 60 m request, with or without a region, any successful load returns a band order that differs from the stacked order and makes the index computation fail |
| `DataLoader.LoadMultispectralCorrected` | src/sentinel2_classifier/data_loader.py:66-72 | the same failure and success conditions as `LoadMultispectral`, with the returned order being the stacked one: it is ascending, as long as the band count and as the stack (with or without a region), made of requested bands native to the resolution that have files, and without a region band i is the raster of the i-th listed band |
| `DataLoader.CorrectedOrderUsesNamedBands` | src/sentinel2_classifier/indices.py:50-70 | with the corrected order, whenever B03, B04 and B08 were stacked the indices are computed from exactly the B03, B04 and B08 files |
| `DataLoader.PrepareFeatures` | src/sentinel2_classifier/data_loader.py:75-77 | a stack without bands cannot be reshaped; otherwise one row per pixel in row-major order, column b holding band b |
| `DataLoader.MasksPartition` | src/sentinel2_classifier/data_loader.py:99-105 | the water, vegetation and urban masks are pairwise disjoint and cover every pixel: exactly the mask of the pixel's class holds |
| `DataLoader.ApplyMasksAnyOrder` | src/sentinel2_classifier/data_loader.py:96-105 | applying any list of the masks, in any order, leaves the pixel's class when that class's mask is in the list and the starting value otherwise |
| `DataLoader.LabelByMasks` | src/sentinel2_classifier/data_loader.py:96-105 | the three masked assignments on a zero label give 0 when NDWI > 0.3, else 1 when NDVI > 0.4, else 2 |
| `DataLoader.LabelGrid` | src/sentinel2_classifier/data_loader.py:96-105 | the label grid has the index grids' shape and each pixel gets its class |
| `DataLoader.FlatLabels` | src/sentinel2_classifier/data_loader.py:96-107 | the flattened label grid has H·W entries and entry y·W+x is the class of the two indices at pixel (y, x) |
| `DataLoader.CreateSampleLabelsFromIndex` | src/sentinel2_classifier/data_loader.py:90-107 | index-lookup failures propagate as `IndexError`; otherwise the labels have length H·W and entry y·W+x is the class of the NDVI and NDWI computed at pixel (y, x) |
| `DataLoader.DemoGrid` | src/sentinel2_classifier/data_loader.py:82-86 | after the zero fill and the three row-slice assignments, every pixel of row y holds the demo class of y |
| `DataLoader.CreateSampleLabels` | src/sentinel2_classifier/data_loader.py:80-87 | the demo labels have length H·W and entry k is water for the rows above ⌊H/3⌋, vegetation up to ⌊2H/3⌋, urban below, for row k // W |
| `DataLoader.DemoClassMonotone` | src/sentinel2_classifier/data_loader.py:84-86 | going down the image the demo class never decreases |
| `DataLoader.LabelsFollowFeatures` | process_multispectral.py:47-51 | when both the feature table and the labels can be built, they have the same length and label k is the class computed from the green, red and NIR columns of feature row k |
| `DataLoader.Train` | process_multispectral.py:46-51 | building the feature table and the labels succeeds exactly when both steps do; the training set then pairs H·W feature rows with H·W labels, each label computed from its own feature row at the band positions the loader's order names |
| `DataLoader.ProcessMultispectral` | process_multispectral.py:36-51 | the script's flow on the loader as written: whenever it reaches training, the labels and feature rows correspond one to one as in `Train` |
| `DataLoader.DefaultRequestNeverTrains` | process_multispectral.py:36-51 | with the default 10 m or 60 m request, with or without a region, the script as written never reaches training |
| `DataLoader.ProcessMultispectralCorrected` | process_multispectral.py:36-51 | the same flow on the corrected loader: labels and feature rows correspond one to one, and the band order is ascending |
| `DataLoader.CorrectedTrainsWithNamedBands` | process_multispectral.py:36-51 | whenever the corrected loader stacks B03, B04 and B08, the corrected flow reaches training |

## Left out

- Raster I/O, the profile dict and `load_sentinel2_image`: reading band 1 of a file and reading a profile are the `Env` fields `read` and `profileOf`. Only the `crs`, `height`, `width` and `count` entries of a profile are modelled. The `dtype` update is not. Both fields are total: a missing or unreadable band file, which makes `rasterio.open` raise, is not modelled. The temporary GeoTIFF that `crop_multispectral_data` writes with the stack's profile and reads back is taken to round-trip exactly. So "succeeds exactly when" in the `ResampleBands`, `LoadSafeFolder` and loader rows holds relative to an environment that always answers.
- `crop_multispectral_data` and `crop_raster_with_geojson`: the temporary file is not modelled. `rasterio.mask.mask` is split into the `Env` fields `window` and `covers`. `window` gives the crop window, or nothing when the polygon misses the raster. `covers` says which raster pixels the polygon covers. How the window follows from the affine transform and the `all_touched` rule belong to the environment. The cropped profile's `transform` is not modelled.
- Projection: pyproj's `Transformer` is the parameter `project`. A failure to build a transformer for an unknown CRS is not modelled.
- Loading the GeoJSON file is left out. The document is given parsed, and the `if geojson_path:` test becomes "a region is given". Malformed documents (missing `features`, `geometry` or `coordinates` keys, or a `crs` that is not a dict) cannot be expressed in the datatype. Vertices have two coordinates; extra coordinates are not modelled.
- GeospatialUtils.ValidateAndTransformCrs: Python mutates the caller's dict in place, and the model returns a new value. A failure part-way leaves the earlier features transformed in Python; the model has no partial state.
- Directory globbing: listings are inputs in file-system order. `Path.exists` is presence in the sub-folder map. Hidden files and glob case rules are not modelled; a listed file is a candidate when its name ends in `.jp2`. `next(glob("GRANULE/*"))` is the first entry of `SafeFolder.granules`.
- float32 conversion, NaN and rounding: index arithmetic is over `real`. The NaN case of the label masks (where no mask holds) cannot arise.
- Labels are natural numbers below 3, not `uint8` arrays.
- DataLoader.CreateSampleLabels: the height and width are natural numbers, so the negative sizes that `np.zeros` rejects cannot be expressed.
- The classifier, model saving, plots, logging and the command-line scripts are left out. From `process_multispectral.py`, only the data flow up to the training call is modelled.

## Findings

| source | as written | input that shows it | evidently intended | confidence | as-written member | corrected member |
|---|---|---|---|---|---|---|
| src/sentinel2_classifier/data_loader.py:66-72 | `load_sentinel2_multispectral` returns the requested band list as the band order. The stack holds only the requested bands found at the target resolution, in sorted order. | `selected_bands=None` at 10 m, no region, all band files present. The order returned is `["AOT","B02","B03","B04","B08","TCI","WVP"]`, but the stack holds at most B02, B03, B04, B08. `calculate_indices_from_sentinel2` then reads `data[4]` as NIR and raises `IndexError`. At 60 m the fallback positions 1, 2, 3 index a stack of at most two bands. `DataLoader.RequestedOrderBreaksIndices` proves both cases, and `DataLoader.DefaultRequestNeverTrains` shows that `process_multispectral.py` then never reaches training. | return the order of the bands actually stacked; `DataLoader.CorrectedOrderUsesNamedBands` proves the indices then use the B03, B04 and B08 files | not executed; proved about the model | DataLoader.LoadMultispectral | DataLoader.LoadMultispectralCorrected |

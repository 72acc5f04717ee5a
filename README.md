# ur5_lightfields in Dafny

A model of the scanning and light-field side of ur5_lightfields. The Python project
moves a UR5 arm over a grid in front of a RealSense camera and saves a capture at
every grid point. It records one calibrated two-sensor session for export, and it
browses the captures in a viewer that picks the one taken nearest the mouse.

The model is organised in these modules:

- **`Export`** (`export.dfy`): the `MaaraExport` session exporter, as a class.
  - Its setters replace one field each.
  - `SaveImages` appends one view per infrared sensor and counts the frame.
  - File writes are recorded in a `writes` log instead of being performed.
  - `ExportCameras` projects the session onto the two sensor descriptors, and `Save` writes the same document as `export.npy` and as `export.json`.
  - `Valid` holds in every reachable state. `Paired` is the pairing between the two view lists and the frame counter: `SaveImagesChecked` keeps it, and `SaveImages` loses it when a capture fails.
- **`ArrayCodec`** (`arraycodec.dfy`), with numpy arrays as shape plus row-major data in **`NdArrays`** (`ndarrays.dfy`).
  - Covers `NumpyEncoder.default`, `numpy_decoder_hook`, `tolist()` and `np.array()`.
  - Also the whole-tree effect of `json.dump(..., cls=NumpyEncoder)` and `json.load(..., object_hook=numpy_decoder_hook)`.
  - Python tuples are a value of their own, since `json.dump` writes them as arrays and `json.load` returns lists.
- **`RobotScan`** (`robotscan.dfy`): the generators `grid_scan` and `grid_scan_no_stop`, and the capture name `"%.4d-%.4d" % (x + 500, z)`.
  - The generators are methods with loops, specified by recursive functions over the row index.
  - Python's `range` is `PyRange`.
  - The direction flag is the parity of the row index.
- **`SimpleRender`** (`simplerender.dfy`): the metadata side of the light-field viewer.
  - Reading a position back out of a file name, the extension filter and the min/max bounds.
  - `map_range`, the distance, and the closest-image loop of `on_mouse`.
  - The viewer itself is a class whose displayed capture is the state `on_mouse` changes.
- **`Realsense`** (`realsense.dfy`): `camera_matrix`, `ir1_camera_matrix`, `ir2_camera_matrix` and `l2r_extrinsics`. The SDK's intrinsics and extrinsics records are their inputs.
  - The SDK's rotation of a point (`rs2_transform_point_to_point` without its translation) is `SdkRotate`.
- **`PyFormat`** (`pyformat.dfy`) holds the Python string behaviour the rest relies on: `"%.Nd"`, `float()` of a digit field, clamped slicing and `os.path.join`.
- **`Wrappers`** (`wrappers.dfy`) holds `Option` and `Outcome`. They stand for a raised exception: `None` or `Fail` is the exception, and the error datatype names its cause.

## Model

| member | source | states |
|---|---|---|
| ArrayCodec.Lookup | Export.py:16 | `dct['__npdata__']` is found exactly when the key is present, and it is the value of the last pair with that key |
| ArrayCodec.ToList | Export.py:11 | `tolist()` yields a JSON tree with no array and no sentinel key in it |
| ArrayCodec.Default | Export.py:9-11 | an array becomes a plain JSON dict holding the sentinel `__nparray__` and, under `__npdata__`, the array's `tolist()` |
| ArrayCodec.FromList | Export.py:16 | `np.array` of a number is a 0-d array of it; of a list, an array whose leading axis is the list's length; anything else fails in the model |
| ArrayCodec.Encode | Export.py:8-12 | after `NumpyEncoder` has replaced every array, and tuples are written as arrays, the tree is plain JSON |
| ArrayCodec.Decode | Export.py:14-17 | only plain JSON decodes (a tree still holding an array or a tuple fails), and what comes back holds no tuple |
| ArrayCodec.TuplesAsLists | Export.py:119 | every tuple becomes a list; the result holds no tuple, and is a list exactly when the input was a list or a tuple |
| ArrayCodec.TuplesAsListsTupleFree | Export.py:14-17 | a tree without tuples is left unchanged, so for it the JSON round trip is exact |
| ArrayCodec.DecoderHook | Export.py:14-17 | a dict without `__nparray__` is returned unchanged; a dict with it becomes an array or fails |
| ArrayCodec.FromListToList | Export.py:11-16 | `np.array(a.tolist())` rebuilds `a`, shape included, when every axis but the last is non-empty |
| ArrayCodec.FromListStacks | Export.py:16 | `np.array` of a list of equally shaped arrays stacks them along a new leading axis |
| ArrayCodec.EmptyLeadingAxisCollapses | Export.py:11-16 | a `(0, 3)` array comes back as shape `(0,)`: the round trip loses an axis after an empty one |
| ArrayCodec.DecodePassThrough | Export.py:14-17 | JSON without the sentinel decodes to itself; the hook passes every such dict through |
| ArrayCodec.DecodeTagged | Export.py:14-16 | a tagged dict whose data is plain JSON reaches the hook with its fields unchanged |
| ArrayCodec.DecodeDefault | Export.py:8-17 | decoding the encoder's tagged dict gives the array back |
| ArrayCodec.DecodeEncode | Export.py:8-17 | decode(encode(v)) is v with its tuples turned into lists, for every tree whose dicts avoid the sentinel and whose arrays keep their shape through `tolist()` |
| NdArrays.Vector | RealsenseDriver.py:93 | `np.array` of a flat list is the 1-D array of those values |
| NdArrays.Zeros3 | Export.py:63 | `np.zeros(3)` has shape (3,) and all entries zero |
| NdArrays.Identity3 | Export.py:64 | `np.identity(3)` is 3x3 with ones exactly on the diagonal |
| NdArrays.Reshape | RealsenseDriver.py:94 | `reshape` keeps the elements and their order, and fails exactly when the sizes differ |
| NdArrays.Add | Export.py:57 | `+` of two arrays of one shape adds them element by element, and fails when the shapes differ; numpy's broadcasting of size-1 axes is not modelled |
| NdArrays.Head | Export.py:53 | `pose[:3]` holds the first three values, or all of them when there are fewer |
| PyFormat.PadNat | Export.py:51 | `"%.5d" % k` is digits only, exactly as long as the larger of 5 and the number of digits of `k` |
| PyFormat.FormatInt | RobotScan.py:218 | `"%.4d" % i` starts with `-` exactly when `i` is negative; the rest is at least 4 digits that read as the magnitude of `i` |
| PyFormat.ParseInt | SimpleRender.py:22-24 | the model's `float(field)`: only a sign followed by digits. It succeeds exactly on that grammar; a digit string reads as its decimal value, and only a leading `-` gives a negative number |
| PyFormat.Join | Export.py:30-31 | `join(a, b)` is `b` when `b` is absolute; for a relative `b` it adds exactly one character, the `/`, unless `a` is empty or already ends in `/` |
| PyFormat.JoinAssociative | Export.py:30-31 | joining the root, a directory name and a file name gives one path in either grouping |
| PyFormat.PadNatFacts | Export.py:51 | `"%.5d" % k` is all digits, at least 5 long, exactly 5 long below 10^5, and reads back as `k` |
| PyFormat.PadNatInjective | Export.py:51-55 | distinct counters give distinct padded names |
| PyFormat.FormatIntParses | RobotScan.py:218 | `float("%.4d" % i)` gives `i` back, negative `i` included |
| PyFormat.Slice | SimpleRender.py:22-24 | `filename[i:j]` has the clamped length and the characters from `i` on |
| PyFormat.LastThree | SimpleRender.py:62 | `f[-3:]` is the last three characters, or all of a shorter `f` |
| Export.FrameName | Export.py:51 | `"%.5d.png" % k` ends in `.png`, is at least 9 characters long, and exactly 9 below frame 100000 |
| Export.ImageRef | Export.py:51-53 | the recorded reference is `join(sensor, "%.5d.png" % k)` |
| Export.Ir1View | Export.py:53 | the left view of frame `k`: the `ir1/` reference of the frame, the first (up to three) pose values as a 1-D location, and the identity rotation |
| Export.ViewValue | Export.py:53 | the view dict: keys `image`, `location` and `rotation`, in that order, holding the reference and the two arrays |
| Export.DescriptorValue | Export.py:62-80 | the camera dict: keys `location`, `rotation`, `views`, `K`, `dist`, `master`, `dim`, in that order; each view as its dict; `dim` as the tuple `(width, height)` |
| Export.Ir2View | Export.py:57 | the right view exists exactly when the rig location has the shape of `pose[:3]`; it is then `pose[i] + l2r['location'][i]` per component, with the identity rotation and the frame's `ir2/` name |
| Export.Descriptors | Export.py:61-81 | two descriptors; only index 0 is master, at the zero location with the identity rotation; each carries its own sensor's calibration and views, and the second carries the rig transform |
| Export.ImageRefNotAbsolute | Export.py:53 | a recorded image path is relative |
| Export.ImageRefRelative | Export.py:51-53 | joined to the session root, the recorded `ir1/NNNNN.png` reference is the file that was written |
| Export.ImageRefInjective | Export.py:51-55 | two frames of a sensor share a reference only when they are the same frame |
| Export.IndexedViewsDistinct | Export.py:53-57 | no two views of an indexed list share an image file |
| Export.IndexedViewsAppend | Export.py:53-57 | appending the view of the next frame keeps a list indexed by frame |
| Export.ViewValueEncodable | Export.py:53 | a view dict avoids the sentinel key, and its arrays keep their shapes |
| Export.DescriptorValueEncodable | Export.py:62-80 | a descriptor dict avoids the sentinel key, and its arrays keep their shapes |
| Export.Document | Export.py:116-119 | `dict(master = 0, cameras=cameras)`: `master` first with value 0, then `cameras` holding each camera's dict, in order |
| Export.DocumentRoundTrip | Export.py:114-119 | `export.json` decodes to the `dict(master=0, cameras=...)` saved in `export.npy`, with each tuple `dim` as a list, when the stored arrays keep their shape |
| Export.JsonDimIsList | Export.py:41-44 | with at least one camera the two files do not hold the same value: `export.npy` keeps `dim` as the tuple `set_ir1_camera` stored, `export.json` loads it as a list |
| Export.MaaraExport.constructor | Export.py:21-31 | a new session has no views, a zero counter, nothing calibrated and the `ir1`/`ir2` directories under the root |
| Export.MaaraExport.SetIr1Camera | Export.py:40-41 | replaces `ir1` with `{K, dist, dim}`, nothing else |
| Export.MaaraExport.SetIr2Camera | Export.py:43-44 | replaces `ir2` with `{K, dist, dim}`, nothing else |
| Export.MaaraExport.SetL2r | Export.py:46-47 | replaces `l2r` with `{location, rotation}`, nothing else |
| Export.MaaraExport.SaveImages | Export.py:49-59 | as written: both images are written and the left view appended; without `l2r`, or with a location that does not add, it fails with the counter unmoved. On success both lists grow by one and the counter by one, and a paired session stays paired exactly when the call succeeds |
| Export.MaaraExport.SaveImagesChecked | Export.py:49-59 | corrected: it succeeds exactly when both calibrations and the rig are set and the location adds; a failure changes nothing, so the pairing is always kept |
| Export.MaaraExport.ExportCameras | Export.py:61-81 | fails exactly while a calibration or the rig is unset; otherwise two descriptors over the current view lists |
| Export.MaaraExport.Save | Export.py:114-119 | writes `export.npy` then `export.json` with the same document, exactly when the export succeeds; with shape-preserving calibration, the JSON file decodes to the npy content with its tuples as lists |
| Export.MaaraExport.ExportRoundTrip | Export.py:114-119 | once the calibration arrays keep their shape, the session's exported document comes back from JSON with its tuples as lists |
| Export.MaaraExport.SessionRecoverable | Export.py:61-81 | every array a valid session exports keeps its shape through `tolist()` once the calibration arrays do |
| Realsense.CameraMatrix | RealsenseDriver.py:77-81 | rows `[fx, 0, ppx]`, `[0, fy, ppy]`, `[0, 0, 1]`; `coeffs` unchanged; dimensions as `(width, height)` |
| Realsense.Ir1CameraMatrix | RealsenseDriver.py:83-85 | the left stream's own intrinsics, recoverable from the triple |
| Realsense.Ir2CameraMatrix | RealsenseDriver.py:87-89 | the right stream's own intrinsics, recoverable from the triple |
| Realsense.L2rExtrinsics | RealsenseDriver.py:91-95 | `(location, rotation)` with the translation unchanged and `R[i][j] == rotation[3*i + j]`; fails exactly when there are not nine rotation values |
| Realsense.L2rExtrinsicsColumnMajor | RealsenseDriver.py:91-95 | corrected: entry `(i, j)` of the rotation is SDK value `3*j + i`, the column-major layout; the translation is unchanged; fails exactly when there are not nine rotation values |
| Realsense.ColumnMajorRotates | RealsenseDriver.py:94 | the corrected matrix times a point is the SDK's rotation of that point |
| Realsense.RowMajorTransposes | RealsenseDriver.py:94 | the source's row-major matrix is the transpose of the corrected one |
| Realsense.RowMajorMisrotates | RealsenseDriver.py:94 | for a quarter turn about the optical axis the SDK sends the x axis to `(0, 1, 0)`, the source's matrix to `(0, -1, 0)` |
| Realsense.CameraMatrixInverse | RealsenseDriver.py:77-81 | the triple determines the intrinsics it was built from |
| Realsense.CameraMatrixProjects | RealsenseDriver.py:77-80 | `K @ (X, Y, Z)` is the pinhole projection `(fx X + ppx Z, fy Y + ppy Z, Z)` |
| Realsense.RotationRavels | RealsenseDriver.py:94 | flattening the reshaped rotation gives the SDK's nine values back |
| Realsense.DriverCalibrationRecoverable | RealsenseDriver.py:77-95 | the calibration the driver hands to the exporter keeps its shapes through the JSON export, under either reading of the rotation |
| RobotScan.PyRange | RobotScan.py:135 | `range` yields `start` first, is empty exactly when `start` is already at or past `stop`, and yields only values before `stop` |
| RobotScan.ZRows | RobotScan.py:135 | `range(top, bottom-zstep, -zstep)`: starts at `top`, is empty exactly when `top` is already past `bottom - zstep`, and every height is before `bottom - zstep` |
| RobotScan.AscendingXs | RobotScan.py:137 | `range(-width//2, width//2+xstep, xstep)`: starts at `-width//2`, is empty exactly when that is already past `width//2 + xstep`, and every x is before `width//2 + xstep` |
| RobotScan.DescendingXs | RobotScan.py:141 | `range(width//2, -width//2-xstep, -xstep)`: starts at `width//2`, is empty exactly when that is already past `-width//2 - xstep`, and every x is before it |
| RobotScan.GridScanPath | RobotScan.py:133-143 | fails exactly for a zero `zstep`, or a zero `xstep` with at least one row; every point is at `y == ypos` and at one of the rows' heights |
| RobotScan.GridScanNoStopPath | RobotScan.py:145-155 | fails exactly for a zero `zstep`; otherwise two points per row |
| RobotScan.CaptureName | RobotScan.py:218 | at least 9 characters; exactly 9 with the `-` at index 4 when both numbers are between 0 and 9999 |
| RobotScan.PointsAt | RobotScan.py:138 | one point per x value |
| RobotScan.GridScan | RobotScan.py:133-143 | the collected generator equals `GridScanPath`: rows from `top` down, alternating direction, first left to right; a zero step fails |
| RobotScan.AppendRow | RobotScan.py:137-142 | the inner loop appends one point per value of its `range`, in order |
| RobotScan.GridScanNoStop | RobotScan.py:145-155 | the collected generator equals `GridScanNoStopPath` |
| RobotScan.EvenParity | RobotScan.py:134-143 | row `j` runs left to right exactly when `j` is even |
| RobotScan.EndpointSweepLayout | RobotScan.py:145-155 | two points per row, the row's two ends, left end first on even rows |
| RobotScan.PyRangeElements | RobotScan.py:135 | element `k` of `range` is `start + k*step`; each lies before `stop`; the next one does not |
| RobotScan.RangeCount | RobotScan.py:135 | the length of `range` is the first count at which it leaves the interval |
| RobotScan.RangeIndex | RobotScan.py:135 | every member of a `range` is `start` plus a whole number of steps |
| RobotScan.PyRangeBounds | RobotScan.py:135 | a `range` stays between `start` (included) and `stop` (excluded) |
| RobotScan.PyRangeReflect | RobotScan.py:137-141 | `range(c-a, c-b, -s)` is `range(a, b, s)` reflected about `c/2` |
| RobotScan.RowsMirror | RobotScan.py:137-142 | a right-to-left row has as many points as a left-to-right row, at the mirrored x values |
| RobotScan.SweepLength | RobotScan.py:133-143 | `i` rows hold `i` times the points of one row |
| RobotScan.SweepRow | RobotScan.py:134-143 | row `j`, ascending exactly when `j` is even, sits in the path right after the first `j` rows (at `j*n` points, by `SweepLength`) |
| RobotScan.SweepPoints | RobotScan.py:138-142 | every point is at `y == ypos`, at one of the rows' heights, with an x of a row |
| RobotScan.GridScanBounded | RobotScan.py:133-143 | with positive steps: `-width//2 - xstep < x < width//2 + xstep`, `bottom - zstep < z <= top`, `y == ypos` |
| RobotScan.RangeLength | RobotScan.py:137 | a `range` with a positive step has `ceil((stop - start)/step)` elements |
| RobotScan.RangeLengthDown | RobotScan.py:135 | the same count for a negative step |
| RobotScan.GridScanLength | RobotScan.py:133-143 | (number of rows) times (points per row) points, with both counts in closed form |
| RobotScan.DefaultRowCount | RobotScan.py:215 | the scan that is run has 51 rows |
| RobotScan.DefaultRowLength | RobotScan.py:215 | each of its rows has 101 points from -500 to 500 |
| RobotScan.DefaultScanLength | RobotScan.py:215-216 | `grid_scan(1000, 200, 700, 10, 10, 400)` yields 51 * 101 points, the progress bar's total |
| RobotScan.DefaultScanBounds | RobotScan.py:215-216 | every point of that scan lies in `-500..500` x `200..700` at `y == 400` |
| RobotScan.CaptureNameLayout | RobotScan.py:218 | for `0 <= x+500, z <= 9999`: 9 characters, `-` at index 4, the padded numbers on either side, each parsing back |
| SimpleRender.ParseMeta | SimpleRender.py:17-24 | x from `filename[0:4]`, z from `filename[5:9]`, y = 0; fails exactly when a field is not a number |
| SimpleRender.ImageMetadata | SimpleRender.py:60-63 | fails exactly when some image file's name does not parse; otherwise one entry per image file, in listing order, with that file's name and the listed path |
| SimpleRender.ImageFiles | SimpleRender.py:60-63 | keeps exactly the names ending in `jpg`, `png` or `bmp` |
| SimpleRender.ImageFilesAppend | SimpleRender.py:62 | the filter distributes over concatenation, so listing order is kept |
| SimpleRender.ImageFilesKeepsImages | SimpleRender.py:62 | a listing of image files alone is kept whole |
| SimpleRender.ParseAll | SimpleRender.py:62 | one entry per name, in order, each that name's parse; fails exactly when some name does not parse |
| SimpleRender.MinOf | SimpleRender.py:44-46 | `min` is an element and below every element |
| SimpleRender.MaxOf | SimpleRender.py:45-47 | `max` is an element and above every element |
| SimpleRender.BoundsEnclose | SimpleRender.py:44-47 | `min_x <= m.x <= max_x` and `min_z <= m.z <= max_z` for every entry, and each bound is some entry's |
| SimpleRender.DistSq | SimpleRender.py:26-27 | the squared distance is non-negative |
| SimpleRender.DistSqOwnPosition | SimpleRender.py:26-27 | zero at the entry's own `(x, z)`, and independent of `y` |
| SimpleRender.DistSqSymmetric | SimpleRender.py:26-27 | the distance from one entry's position to another's equals the distance back |
| SimpleRender.MapRange | SimpleRender.py:10-13 | fails exactly when `imax == imin`; otherwise `(r - tmin)(imax - imin) == (value - imin)(tmax - tmin)` |
| SimpleRender.MapRangeEndpoints | SimpleRender.py:10-13 | `imin` goes to `tmin` and `imax` to `tmax` |
| SimpleRender.MapRangeMonotone | SimpleRender.py:10-13 | non-decreasing in `value` for increasing intervals |
| SimpleRender.MapRangeInverse | SimpleRender.py:10-13 | mapping there and back gives the value back |
| SimpleRender.MouseInBounds | SimpleRender.py:67-69 | a mouse position inside the window maps into `[min_x, max_x]` |
| SimpleRender.ClosestImage | SimpleRender.py:72-77 | the chosen entry is as near as every entry and strictly nearer than every earlier one, so on ties the first wins |
| SimpleRender.FirstNearestUnique | SimpleRender.py:72-77 | that choice is unique |
| SimpleRender.FieldViewer.constructor | SimpleRender.py:40-50 | metadata of the listed images, their bounds, and capture 10 shown first |
| SimpleRender.FieldViewer.OnMouse | SimpleRender.py:65-80 | succeeds exactly for a window with width and height; then the first nearest capture to the mapped mouse position is shown; otherwise nothing changes |
| SimpleRender.CaptureFileParses | SimpleRender.py:22-24 | the `.jpg` capture saved at `p` passes the filter and parses to `(x + 500, 0, z)` |
| SimpleRender.DefaultScanFilesParse | SimpleRender.py:22-24 | every capture of the scan that is run parses back to its own position |

## Left out

- Hardware: pyrealsense2 streaming, `warm_camera`, `set_laser`, `get` and RobotScan.py's own `RealsenseDriver`. The SDK's intrinsics and extrinsics are parameters of `Realsense` instead.
- The threads that write captures, and the `ArmDriver` robot control over the network, with its float pose arithmetic.
- File I/O:
  - `mkdir`, PIL image saves, `np.save` and the JSON text with its indentation.
  - Export writes are recorded as a list of path and content pairs.
  - `json.dump` and `json.load` are modelled as trees, without the text in between.
  - `cv2` windows, `imread` and `resize`, `load_small`, `run`, and every `print`.
- `export_cameras_old`: dead code. It uses names that are never defined.
- RectificationTest.py is not part of this model.
- The tqdm progress bars, and the commented-out continuous capture block in RobotScan.py.
- numpy dtypes (every element is a real) and broadcasting of size-1 axes.
- NdArrays.Add: arrays of different shapes fail. numpy broadcasts size-1 axes, so `(3,) + (1,)` and `(3,) + (3, 1)` succeed there; every addition the source makes is of two 3-vectors.
- ArrayCodec.FromList: defined on what `json.load` returns. `np.array` of a tuple is not modelled, because no tuple reaches the decoder hook. Non-numeric leaves fail in the model, while numpy builds bool, str or object arrays from them (`np.array(True)`, `np.array("x")`, `np.array(None)`, `np.array({})`, `np.array([True])`); so a tagged dict whose data is such a value fails in `DecoderHook`, where the source returns an array. What numpy does with ragged lists depends on its version; the model fails on them.
- RobotScan.GridScan: `ypos` has no default of 300, because every call passes it.
- RobotScan.GridScanNoStop: no `ypos` default, for the same reason, and no `xstep` parameter. The source accepts `xstep` and never reads it.
- PyFormat.ParseInt: only a sign followed by digits is read as a number. Python's `float()` also accepts whitespace, a decimal point, exponents, underscores, `inf` and `nan`; the model returns `None` on all of these.
- SimpleRender.ParseMeta: only a sign followed by digits is read as a number. Python's `float()` also accepts whitespace, a decimal point, exponents, underscores, `inf` and `nan`, and such names fail in the model where the source would read them.
- SimpleRender.DistSq: the square of the distance, in exact reals. Square root and IEEE floating point are not modelled; the root is monotone, so every comparison the viewer makes is the same.
- SimpleRender.MapRange: exact real division, not floating point.
- SimpleRender.FieldViewer.constructor: a precondition requires that every image file parses and that there are more than ten. The source raises instead (`min` of an empty list, or `metadata[10]`).
- SimpleRender.FieldViewer.OnMouse: the window size is a parameter. The displayed image is modelled by the index of its entry.
- ArrayCodec.DecodeEncode: the round trip is stated only for arrays whose axes before the last are non-empty. numpy loses the shape of the others (see ArrayCodec.EmptyLeadingAxisCollapses).
- ArrayCodec.FromListToList: same restriction, same reason.
- Export.Ir2View: shapes must match exactly. numpy would broadcast a size-1 rig location.
- Export: `pose` is taken to be a numpy array, so the left view's `location` is an array. A list pose would make it a plain JSON list, which `json.load` does not turn back into an array. The descriptors `export_cameras` builds share their `views` lists with the session, so later captures show up in them; the model returns values and does not capture that aliasing.
- Export.MaaraExport.SaveImages: `relpath` is modelled for the directories the session itself creates, `ir1` and `ir2` joined to the root. Its normalisation of other paths is not modelled.
- RobotScan.GridScanBounded: stated for positive steps only. Negative steps run the scan the other way and are not covered.
- RobotScan.GridScanLength: positive steps only, for the same reason.
- RobotScan.DefaultScanLength: the call's arguments are pinned by the precondition instead of written as literals, so the verifier does not evaluate the 5151-point path.
- RobotScan.DefaultScanBounds: arguments pinned in the same way.

## Findings

| source | as written | input that shows it | evidently intended | confidence | as-written member | corrected member |
|---|---|---|---|---|---|---|
| Export.py:49-59 | `save_images` writes both images and appends the left view before it reads `self.l2r['location']`, and it checks no calibration | `save_images` on a new session before `set_l2r`: TypeError with one left view, no right view and the counter at 0. After `set_l2r`, the next capture names frame `00000.png` again and records a second left view for it (replayed in `Export.UnsetRigBreaksPairing`) | validate calibration and rig first, so a failed capture changes nothing and both view lists stay paired with the counter | not executed | Export.MaaraExport.SaveImages | Export.MaaraExport.SaveImagesChecked |
| RealsenseDriver.py:94 | `np.array(extrinsics.rotation).reshape(3,3)` reads the SDK's nine rotation values row-major, while librealsense documents `rs2_extrinsics.rotation` as column-major, so the stored `l2r` rotation is the transpose of the rig rotation | a quarter turn about the optical axis, reported as `[0, 1, 0, -1, 0, 0, 0, 0, 1]`: the SDK sends the x axis to `(0, 1, 0)`, the stored matrix to `(0, -1, 0)` (`Realsense.RowMajorMisrotates`) | if the consumer of `l2r` takes `rotation` as the matrix that maps a point in the left sensor's frame to the right sensor's frame (the convention of `rs2_transform_point_to_point`, which is assumed here): `reshape(3, 3).T`, or `reshape(3, 3, order='F')`. If it instead takes the columns as the right sensor's axes expressed in the left sensor's frame (the right camera's orientation in the master's frame), the columns of the transpose are exactly those axes and the source's matrix is already right | not executed; low, because it depends on the consumer's convention, which the repository does not state | Realsense.L2rExtrinsics | Realsense.L2rExtrinsicsColumnMajor |

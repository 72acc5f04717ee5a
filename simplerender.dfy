/**
 * The metadata side of SimpleRender.py's light-field viewer: every colour capture
 * in a directory is described by the arm position parsed back out of its name,
 * and a mouse position in the window is mapped onto the scanned area to pick the
 * capture taken nearest to it.
 */
module SimpleRender {
  import opened Wrappers
  import opened PyFormat
  import RobotScan

  /** `images_extensions`: the suffixes a file must end in to be read as an image. */
  const ImageExtensions: set<string> := {"jpg", "png", "bmp"}

  /** The directory the viewer lists, fixed in its constructor. */
  const LfPath: string := "/local/jmm403/ur5/scan_1cm_close/color"

  /** The capture the viewer shows first: `metadata[10]`. */
  const FirstShown: nat := 10

  /**
   * `ImageMetaData`: the directory, the file name and the position read from the
   * name. `float()` of a field of digits is a whole number, so positions are integers.
   */
  datatype ImageMeta = ImageMeta(path: string, filename: string, x: int, y: int, z: int)

  /** `f[-3:] in images_extensions`. */
  predicate IsImageFile(f: string)
  {
    LastThree(f) in ImageExtensions
  }

  /**
   * `ImageMetaData(path, filename)`: x from `filename[0:4]`, z from `filename[5:9]`,
   * y always 0; `None` for the ValueError of a field that is not a number.
   */
  function ParseMeta(path: string, filename: string): (r: Option<ImageMeta>)
    ensures r.Some? <==> ParseInt(Slice(filename, 0, 4)).Some? && ParseInt(Slice(filename, 5, 9)).Some?
    ensures r.Some? ==> r.value.path == path && r.value.filename == filename && r.value.y == 0
    ensures r.Some? ==> r.value.x == ParseInt(Slice(filename, 0, 4)).value && r.value.z == ParseInt(Slice(filename, 5, 9)).value
  {
    var x := ParseInt(Slice(filename, 0, 4));
    var z := ParseInt(Slice(filename, 5, 9));
    if x.Some? && z.Some? then Some(ImageMeta(path, filename, x.value, 0, z.value)) else None
  }

  /** The files of a listing that pass the extension filter, in listing order. */
  function ImageFiles(files: seq<string>): (r: seq<string>)
    ensures |r| <= |files|
    ensures forall f :: f in r <==> f in files && IsImageFile(f)
  {
    if files == [] then []
    else (if IsImageFile(files[0]) then [files[0]] else []) + ImageFiles(files[1..])
  }

  /** One `ImageMetaData` per name, in order; `None` as soon as one name does not parse. */
  function ParseAll(path: string, names: seq<string>): (r: Option<seq<ImageMeta>>)
    ensures r.Some? <==> forall i :: 0 <= i < |names| ==> ParseMeta(path, names[i]).Some?
    ensures r.Some? ==> (|r.value| == |names|
      && forall i :: 0 <= i < |names| ==> Some(r.value[i]) == ParseMeta(path, names[i]))
  {
    if names == [] then Some([])
    else
      var head := ParseMeta(path, names[0]);
      var tail := ParseAll(path, names[1..]);
      if head.Some? && tail.Some? then Some([head.value] + tail.value)
      else None
  }

  /** `image_metadata(path)` on the listing `files`: the image files' metadata, in listing order. */
  function ImageMetadata(path: string, files: seq<string>): (r: Option<seq<ImageMeta>>)
    ensures r.Some? <==> forall f :: f in ImageFiles(files) ==> ParseMeta(path, f).Some?
    ensures r.Some? ==> (|r.value| == |ImageFiles(files)|
      && forall i :: 0 <= i < |r.value| ==> r.value[i].path == path && r.value[i].filename == ImageFiles(files)[i])
  {
    ParseAll(path, ImageFiles(files))
  }

  /** Python's `min` of a non-empty list of numbers. */
  function MinOf(xs: seq<int>): (r: int)
    requires |xs| > 0
    ensures r in xs && forall v :: v in xs ==> r <= v
  {
    if |xs| == 1 then xs[0]
    else
      var m := MinOf(xs[1..]);
      assert xs == [xs[0]] + xs[1..];
      if xs[0] <= m then xs[0] else m
  }

  /** Python's `max` of a non-empty list of numbers. */
  function MaxOf(xs: seq<int>): (r: int)
    requires |xs| > 0
    ensures r in xs && forall v :: v in xs ==> v <= r
  {
    if |xs| == 1 then xs[0]
    else
      var m := MaxOf(xs[1..]);
      assert xs == [xs[0]] + xs[1..];
      if xs[0] >= m then xs[0] else m
  }

  /** `[m.x for m in metadata]`. */
  function Xs(metas: seq<ImageMeta>): (r: seq<int>)
    ensures |r| == |metas| && forall i :: 0 <= i < |metas| ==> r[i] == metas[i].x
  {
    seq(|metas|, i requires 0 <= i < |metas| => metas[i].x)
  }

  /** `[m.z for m in metadata]`. */
  function Zs(metas: seq<ImageMeta>): (r: seq<int>)
    ensures |r| == |metas| && forall i :: 0 <= i < |metas| ==> r[i] == metas[i].z
  {
    seq(|metas|, i requires 0 <= i < |metas| => metas[i].z)
  }

  /**
   * The square of `m.distance(qx, qz)`. The source takes the square root; the root
   * is monotone, so every comparison the viewer makes comes out the same on squares.
   */
  function DistSq(m: ImageMeta, qx: real, qz: real): (r: real)
    ensures r >= 0.0
  {
    (m.x as real - qx) * (m.x as real - qx) + (m.z as real - qz) * (m.z as real - qz)
  }

  /**
   * `map_range(value, imin, imax, tmin, tmax)` in exact arithmetic: the point that
   * divides `[tmin, tmax]` as `value` divides `[imin, imax]`; `None` for the
   * ZeroDivisionError when `imax == imin`.
   */
  function MapRange(value: real, imin: real, imax: real, tmin: real, tmax: real): (r: Option<real>)
    ensures r.None? <==> imax == imin
    ensures r.Some? ==> (r.value - tmin) * (imax - imin) == (value - imin) * (tmax - tmin)
  {
    if imax == imin then None
    else
      var t := (value - imin) / (imax - imin);
      assert t * (imax - imin) == value - imin;
      Some(t * (tmax - tmin) + tmin)
  }

  /** Entry `k` is nearer the query than or as near as every entry, and strictly nearer than every entry before it. */
  predicate FirstNearest(metas: seq<ImageMeta>, k: nat, qx: real, qz: real)
  {
    k < |metas|
    && (forall j :: 0 <= j < |metas| ==> DistSq(metas[k], qx, qz) <= DistSq(metas[j], qx, qz))
    && (forall j :: 0 <= j < k ==> DistSq(metas[k], qx, qz) < DistSq(metas[j], qx, qz))
  }

  /**
   * The closest-image loop of `on_mouse`: start from entry 0 and move on only to
   * a strictly nearer entry, so the earliest of equally near entries wins.
   */
  method ClosestImage(metas: seq<ImageMeta>, qx: real, qz: real) returns (k: nat)
    requires |metas| > 0
    ensures FirstNearest(metas, k, qx, qz)
  {
    k := 0;
    var distance := DistSq(metas[0], qx, qz);
    for i := 0 to |metas|
      invariant k < |metas| && k <= i
      invariant distance == DistSq(metas[k], qx, qz)
      invariant forall j :: 0 <= j < i ==> distance <= DistSq(metas[j], qx, qz)
      invariant forall j :: 0 <= j < k ==> distance < DistSq(metas[j], qx, qz)
    {
      if DistSq(metas[i], qx, qz) < distance {
        distance := DistSq(metas[i], qx, qz);
        k := i;
      }
    }
  }

  /**
   * `SimpleFieldViewer`: the metadata of its directory, the bounds of the scanned
   * area and the capture on display (`self.img`, modelled by the index of the
   * entry it was loaded from).
   */
  class FieldViewer {
    const metadata: seq<ImageMeta>
    const minX: int
    const maxX: int
    const minZ: int
    const maxZ: int
    var shown: nat

    ghost predicate Valid()
      reads this
    {
      |metadata| > FirstShown && shown < |metadata|
      && minX == MinOf(Xs(metadata)) && maxX == MaxOf(Xs(metadata))
      && minZ == MinOf(Zs(metadata)) && maxZ == MaxOf(Zs(metadata))
    }

    /**
     * `SimpleFieldViewer()` on the listing `files` of its directory. The source
     * raises unless every image file parses and there are more than ten of them
     * (`min` of an empty list, then `metadata[10]`).
     */
    constructor(files: seq<string>)
      requires ImageMetadata(LfPath, files).Some? && |ImageMetadata(LfPath, files).value| > FirstShown
      ensures Valid()
      ensures metadata == ImageMetadata(LfPath, files).value && shown == FirstShown
    {
      var metas := ImageMetadata(LfPath, files).value;
      assert |metas| > FirstShown;
      metadata := metas;
      minX := MinOf(Xs(metas));
      maxX := MaxOf(Xs(metas));
      minZ := MinOf(Zs(metas));
      maxZ := MaxOf(Zs(metas));
      shown := FirstShown;
    }

    /**
     * `on_mouse` at window position `(x, y)` in a window of the given size: map the
     * position onto the scanned area (window y grows downwards, z upwards) and show
     * the nearest capture. `false`, with nothing changed, for the ZeroDivisionError
     * of a window with no width or no height.
     */
    method OnMouse(x: int, y: int, windowWidth: int, windowHeight: int) returns (ok: bool)
      requires Valid()
      modifies this`shown
      ensures Valid()
      ensures ok <==> windowWidth != 0 && windowHeight != 0
      ensures !ok ==> shown == old(shown)
      ensures ok ==> FirstNearest(metadata, shown,
        MapRange(x as real, 0.0, windowWidth as real, minX as real, maxX as real).value,
        MapRange((windowHeight - y) as real, 0.0, windowHeight as real, minZ as real, maxZ as real).value)
    {
      var imageX := MapRange(x as real, 0.0, windowWidth as real, minX as real, maxX as real);
      var imageY := MapRange((windowHeight - y) as real, 0.0, windowHeight as real, minZ as real, maxZ as real);
      if imageX.None? || imageY.None? {
        return false;
      }
      shown := ClosestImage(metadata, imageX.value, imageY.value);
      return true;
    }
  }

  /** The extension filter distributes over concatenation: it keeps listing order. */
  lemma {:induction false} ImageFilesAppend(a: seq<string>, b: seq<string>)
    ensures ImageFiles(a + b) == ImageFiles(a) + ImageFiles(b)
  {
    if a == [] {
      assert a + b == b;
    } else {
      assert (a + b)[1..] == a[1..] + b;
      ImageFilesAppend(a[1..], b);
      if IsImageFile(a[0]) {
        assert ImageFiles(a + b) == [a[0]] + ImageFiles(a[1..] + b);
      } else {
        assert ImageFiles(a + b) == ImageFiles(a[1..] + b);
      }
    }
  }

  /** A listing of image files alone is kept whole. */
  lemma {:induction false} ImageFilesKeepsImages(files: seq<string>)
    requires forall f :: f in files ==> IsImageFile(f)
    ensures ImageFiles(files) == files
  {
    if files != [] {
      ImageFilesKeepsImages(files[1..]);
    }
  }

  /** `min_x <= m.x <= max_x` and `min_z <= m.z <= max_z` for every entry, and each bound is some entry's. */
  lemma BoundsEnclose(metas: seq<ImageMeta>)
    requires |metas| > 0
    ensures forall m :: m in metas ==> MinOf(Xs(metas)) <= m.x <= MaxOf(Xs(metas))
    ensures forall m :: m in metas ==> MinOf(Zs(metas)) <= m.z <= MaxOf(Zs(metas))
    ensures exists i :: 0 <= i < |metas| && metas[i].x == MinOf(Xs(metas))
    ensures exists i :: 0 <= i < |metas| && metas[i].x == MaxOf(Xs(metas))
    ensures exists i :: 0 <= i < |metas| && metas[i].z == MinOf(Zs(metas))
    ensures exists i :: 0 <= i < |metas| && metas[i].z == MaxOf(Zs(metas))
  {
    var xs, zs := Xs(metas), Zs(metas);
    forall m | m in metas
      ensures MinOf(xs) <= m.x <= MaxOf(xs) && MinOf(zs) <= m.z <= MaxOf(zs)
    {
      var i :| 0 <= i < |metas| && metas[i] == m;
      assert xs[i] in xs && zs[i] in zs;
    }
    var a :| 0 <= a < |xs| && xs[a] == MinOf(xs);
    var b :| 0 <= b < |xs| && xs[b] == MaxOf(xs);
    var c :| 0 <= c < |zs| && zs[c] == MinOf(zs);
    var d :| 0 <= d < |zs| && zs[d] == MaxOf(zs);
    assert metas[a].x == MinOf(xs) && metas[b].x == MaxOf(xs);
    assert metas[c].z == MinOf(zs) && metas[d].z == MaxOf(zs);
  }

  /** The distance only looks at the entry's x and z, and is zero at the entry's own position. */
  lemma DistSqOwnPosition(m: ImageMeta, y: int, qx: real, qz: real)
    ensures DistSq(m, m.x as real, m.z as real) == 0.0
    ensures DistSq(m.(y := y), qx, qz) == DistSq(m, qx, qz)
  {
  }

  /** The distance from one entry's position to another's equals the distance back. */
  lemma DistSqSymmetric(a: ImageMeta, b: ImageMeta)
    ensures DistSq(a, b.x as real, b.z as real) == DistSq(b, a.x as real, a.z as real)
  {
    var dx, dz := a.x as real - b.x as real, a.z as real - b.z as real;
    assert (b.x as real - a.x as real) * (b.x as real - a.x as real) == dx * dx;
    assert (b.z as real - a.z as real) * (b.z as real - a.z as real) == dz * dz;
  }

  /** At most one entry is the first nearest: the loop's choice is determined by the list and the query. */
  lemma FirstNearestUnique(metas: seq<ImageMeta>, k1: nat, k2: nat, qx: real, qz: real)
    requires FirstNearest(metas, k1, qx, qz) && FirstNearest(metas, k2, qx, qz)
    ensures k1 == k2
  {
    var d1, d2 := DistSq(metas[k1], qx, qz), DistSq(metas[k2], qx, qz);
    assert k1 < k2 ==> d2 < d1;
    assert k2 < k1 ==> d1 < d2;
  }

  /** `map_range` sends `imin` to `tmin` and `imax` to `tmax`. */
  lemma MapRangeEndpoints(imin: real, imax: real, tmin: real, tmax: real)
    requires imin != imax
    ensures MapRange(imin, imin, imax, tmin, tmax) == Some(tmin)
    ensures MapRange(imax, imin, imax, tmin, tmax) == Some(tmax)
  {
    var d := imax - imin;
    assert (MapRange(imin, imin, imax, tmin, tmax).value - tmin) * d == 0.0;
    assert (MapRange(imax, imin, imax, tmin, tmax).value - tmin) * d == d * (tmax - tmin);
  }

  /** With `imin < imax` and `tmin <= tmax`, `map_range` is non-decreasing in `value`. */
  lemma MapRangeMonotone(v1: real, v2: real, imin: real, imax: real, tmin: real, tmax: real)
    requires imin < imax && tmin <= tmax && v1 <= v2
    ensures MapRange(v1, imin, imax, tmin, tmax).value <= MapRange(v2, imin, imax, tmin, tmax).value
  {
    var r1, r2 := MapRange(v1, imin, imax, tmin, tmax).value, MapRange(v2, imin, imax, tmin, tmax).value;
    var d := imax - imin;
    assert (r2 - r1) * d == (v2 - v1) * (tmax - tmin);
    assert (v2 - v1) * (tmax - tmin) >= 0.0;
  }

  /** Mapping `[imin, imax]` onto `[tmin, tmax]` and back returns the value, when neither interval is empty. */
  lemma MapRangeInverse(value: real, imin: real, imax: real, tmin: real, tmax: real)
    requires imin != imax && tmin != tmax
    ensures MapRange(MapRange(value, imin, imax, tmin, tmax).value, tmin, tmax, imin, imax) == Some(value)
  {
    var r := MapRange(value, imin, imax, tmin, tmax).value;
    var s := MapRange(r, tmin, tmax, imin, imax).value;
    var di, dt := imax - imin, tmax - tmin;
    assert (r - tmin) * di == (value - imin) * dt;
    assert (s - imin) * dt == (r - tmin) * di;
    assert (s - imin) * dt == (value - imin) * dt;
    assert s - imin == value - imin;
  }

  /** A mouse position inside the window maps into the scanned area's bounds. */
  lemma MouseInBounds(x: int, windowWidth: int, minX: int, maxX: int)
    requires 0 <= x <= windowWidth && windowWidth > 0 && minX <= maxX
    ensures minX as real <= MapRange(x as real, 0.0, windowWidth as real, minX as real, maxX as real).value <= maxX as real
  {
    MapRangeEndpoints(0.0, windowWidth as real, minX as real, maxX as real);
    MapRangeMonotone(0.0, x as real, 0.0, windowWidth as real, minX as real, maxX as real);
    MapRangeMonotone(x as real, windowWidth as real, 0.0, windowWidth as real, minX as real, maxX as real);
  }

  /**
   * The colour capture RobotScan.py saves at `p`, `"%.4d-%.4d" % (x + 500, z)` plus
   * `.jpg`, passes the viewer's filter and parses back to `x + 500` and `z`, when
   * both fit in four digits.
   */
  lemma CaptureFileParses(path: string, p: RobotScan.Point)
    requires 0 <= p.x + 500 <= 9999 && 0 <= p.z <= 9999
    ensures IsImageFile(RobotScan.CaptureName(p) + ".jpg")
    ensures ParseMeta(path, RobotScan.CaptureName(p) + ".jpg")
      == Some(ImageMeta(path, RobotScan.CaptureName(p) + ".jpg", p.x + 500, 0, p.z))
  {
    var name := RobotScan.CaptureName(p);
    var f := name + ".jpg";
    RobotScan.CaptureNameLayout(p);
    assert LastThree(f) == "jpg";
    assert Slice(f, 0, 4) == name[..4];
    assert Slice(f, 5, 9) == name[5..];
  }

  /** Every capture of the scan RobotScan.py runs comes back with its own position under the viewer's parse. */
  lemma DefaultScanFilesParse(path: string, width: int, bottom: int, top: int, step: int, ypos: int)
    requires width == 1000 && bottom == 200 && top == 700 && step == 10 && ypos == 400
    ensures RobotScan.GridScanPath(width, bottom, top, step, step, ypos).Some?
    ensures forall p :: p in RobotScan.GridScanPath(width, bottom, top, step, step, ypos).value ==>
      IsImageFile(RobotScan.CaptureName(p) + ".jpg")
      && ParseMeta(path, RobotScan.CaptureName(p) + ".jpg")
        == Some(ImageMeta(path, RobotScan.CaptureName(p) + ".jpg", p.x + 500, 0, p.z))
  {
    RobotScan.DefaultScanBounds(width, bottom, top, step, ypos);
    forall p | p in RobotScan.GridScanPath(width, bottom, top, step, step, ypos).value
      ensures IsImageFile(RobotScan.CaptureName(p) + ".jpg")
        && ParseMeta(path, RobotScan.CaptureName(p) + ".jpg")
          == Some(ImageMeta(path, RobotScan.CaptureName(p) + ".jpg", p.x + 500, 0, p.z))
    {
      CaptureFileParses(path, p);
    }
  }
}

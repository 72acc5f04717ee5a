/**
 * The scan-session exporter `MaaraExport` (Export.py): calibration for the two
 * infrared sensors, the left-to-right rig transform, one view list per sensor that
 * grows with every captured pair, and the export of the two-sensor rig description.
 * File writes are recorded, in order, instead of being performed.
 */
module Export {
  import opened Wrappers
  import opened PyFormat
  import opened NdArrays
  import opened ArrayCodec

  /** `dict(K=..., dist=..., dim=...)` as stored by `set_ir1_camera` / `set_ir2_camera`. */
  datatype Calibration = Calibration(K: NdArray, dist: NdArray, dim: (int, int))

  /** `dict(location=..., rotation=...)` as stored by `set_l2r`. */
  datatype RigTransform = RigTransform(location: NdArray, rotation: NdArray)

  /** One captured image of one sensor: its path relative to the session root and its pose. */
  datatype View = View(image: string, location: NdArray, rotation: NdArray)

  /** One exported camera entry of the rig. */
  datatype SensorDescriptor = SensorDescriptor(
    location: NdArray, rotation: NdArray, views: seq<View>,
    K: NdArray, dist: NdArray, master: bool, dim: (int, int))

  /** A 2-D pixel buffer. */
  type Frame = seq<seq<int>>

  /** A file the session has written, with what was written to it. */
  datatype FileWrite =
    | WriteImage(path: string, frame: Frame)
    | WriteNpy(path: string, content: Value)
    | WriteJson(path: string, content: Value)

  /** The exceptions the exporter can raise, named after their cause. */
  datatype ExportError = RigTransformUnset | LocationShapeMismatch | CalibrationUnset

  const Ir1 := "ir1"
  const Ir2 := "ir2"

  /** The index `save` records as the master camera. */
  const MasterIndex := 0

  /** `"%.5d.png" % k`: the frame number, zero-padded to five digits, then the extension. */
  function FrameName(k: nat): (r: string)
    ensures |r| >= 9 && IsDigit(r[0]) && r[|r| - 4..] == ".png"
    ensures k < 100000 ==> |r| == 9
  {
    assert Pow10(5) == 100000;
    PadNatFacts(k, 5);
    var r := PadNat(k, 5) + ".png";
    assert r[..|r| - 4] == PadNat(k, 5);
    r
  }

  /** The path of frame `k` of a sensor, relative to the session root. */
  function ImageRef(sensor: string, k: nat): (r: string)
    ensures sensor != [] && sensor[|sensor| - 1] != '/' ==> r == Join(sensor, FrameName(k))
  {
    sensor + "/" + FrameName(k)
  }

  /** The views of a sensor reference its frames `0, 1, 2, ...` in order. */
  ghost predicate IndexedViews(views: seq<View>, sensor: string)
  {
    forall k :: 0 <= k < |views| ==> views[k].image == ImageRef(sensor, k)
  }

  /** Appending the view of the next frame keeps a view list indexed. */
  lemma IndexedViewsAppend(views: seq<View>, sensor: string, v: View)
    requires IndexedViews(views, sensor) && v.image == ImageRef(sensor, |views|)
    ensures IndexedViews(views + [v], sensor)
  {
    var w := views + [v];
    forall k | 0 <= k < |w| ensures w[k].image == ImageRef(sensor, k) {
      if k < |views| {
        assert w[k] == views[k];
      }
    }
  }

  /** A view as `save_images` builds it: a flat location and the identity rotation. */
  ghost predicate WellShapedView(v: View)
  {
    |v.location.shape| == 1 && v.rotation == Identity3()
  }

  /** `pose[:3]`: the position part of the arm pose. */
  function PoseLocation(pose: seq<real>): NdArray
  {
    Head(pose, 3)
  }

  /** The view `save_images` records for the left sensor on its `k`-th call. */
  function Ir1View(k: nat, pose: seq<real>): (r: View)
    ensures r.image == ImageRef(Ir1, k) && r.rotation == Identity3()
    ensures r.location.shape == [if |pose| < 3 then |pose| else 3]
    ensures r.location.data == pose[..if |pose| < 3 then |pose| else 3]
  {
    View(ImageRef(Ir1, k), PoseLocation(pose), Identity3())
  }

  /** The right sensor's view: located at `pose[:3] + l2r['location']`; `None` when the shapes do not add. */
  function Ir2View(k: nat, pose: seq<real>, rig: RigTransform): (r: Option<View>)
    ensures r.Some? <==> rig.location.shape == PoseLocation(pose).shape
    ensures r.Some? ==> r.value.image == ImageRef(Ir2, k) && r.value.rotation == Identity3()
    ensures r.Some? ==> (|r.value.location.data| == |PoseLocation(pose).data| &&
      forall i :: 0 <= i < |r.value.location.data| ==>
        r.value.location.data[i] == pose[i] + rig.location.data[i])
  {
    match Add(PoseLocation(pose), rig.location)
    case None => None
    case Some(loc) => Some(View(ImageRef(Ir2, k), loc, Identity3()))
  }

  /**
   * `export_cameras`: the left sensor is the single master, at the origin with the
   * identity rotation; the right sensor sits at the rig transform. Each carries its own
   * calibration and views.
   */
  function Descriptors(ir1: Calibration, ir2: Calibration, rig: RigTransform,
                       views1: seq<View>, views2: seq<View>): (r: seq<SensorDescriptor>)
    ensures |r| == 2
    ensures forall i :: 0 <= i < |r| ==> (r[i].master <==> i == MasterIndex)
    ensures r[MasterIndex].location == Zeros3() && r[MasterIndex].rotation == Identity3()
    ensures r[0].K == ir1.K && r[0].dist == ir1.dist && r[0].dim == ir1.dim && r[0].views == views1
    ensures r[1].location == rig.location && r[1].rotation == rig.rotation
    ensures r[1].K == ir2.K && r[1].dist == ir2.dist && r[1].dim == ir2.dim && r[1].views == views2
  {
    [ SensorDescriptor(Zeros3(), Identity3(), views1, ir1.K, ir1.dist, true, ir1.dim),
      SensorDescriptor(rig.location, rig.rotation, views2, ir2.K, ir2.dist, false, ir2.dim) ]
  }

  /** A view as the dict `save_images` appends: `image`, `location`, `rotation`, in that order. */
  function ViewValue(v: View): (r: Value)
    ensures r.VDict? && |r.fields| == 3
    ensures r.fields[0] == ("image", VStr(v.image))
    ensures r.fields[1] == ("location", VArray(v.location)) && r.fields[2] == ("rotation", VArray(v.rotation))
  {
    VDict([("image", VStr(v.image)), ("location", VArray(v.location)), ("rotation", VArray(v.rotation))])
  }

  /**
   * A camera as the dict `export_cameras` builds: `location`, `rotation`, `views`, `K`,
   * `dist`, `master` and `dim`, in that order, with `dim` the tuple `(width, height)`.
   */
  function DescriptorValue(d: SensorDescriptor): (r: Value)
    ensures r.VDict? && |r.fields| == 7
    ensures r.fields[0] == ("location", VArray(d.location)) && r.fields[1] == ("rotation", VArray(d.rotation))
    ensures r.fields[2].0 == "views" && r.fields[2].1.VList? && |r.fields[2].1.items| == |d.views|
    ensures forall i :: 0 <= i < |d.views| ==> r.fields[2].1.items[i] == ViewValue(d.views[i])
    ensures r.fields[3] == ("K", VArray(d.K)) && r.fields[4] == ("dist", VArray(d.dist))
    ensures r.fields[5] == ("master", VBool(d.master))
    ensures r.fields[6] == ("dim", VTuple([VNum(d.dim.0 as real), VNum(d.dim.1 as real)]))
  {
    VDict([
      ("location", VArray(d.location)),
      ("rotation", VArray(d.rotation)),
      ("views", VList(seq(|d.views|, i requires 0 <= i < |d.views| => ViewValue(d.views[i])))),
      ("K", VArray(d.K)),
      ("dist", VArray(d.dist)),
      ("master", VBool(d.master)),
      ("dim", VTuple([VNum(d.dim.0 as real), VNum(d.dim.1 as real)]))])
  }

  /** `dict(master = 0, cameras=cameras)`: the content of both export files. */
  function Document(cams: seq<SensorDescriptor>): (r: Value)
    ensures r.VDict? && |r.fields| == 2 && r.fields[0] == ("master", VNum(MasterIndex as real))
    ensures r.fields[1].0 == "cameras" && r.fields[1].1.VList? && |r.fields[1].1.items| == |cams|
    ensures forall i :: 0 <= i < |cams| ==> r.fields[1].1.items[i] == DescriptorValue(cams[i])
  {
    VDict([
      ("master", VNum(MasterIndex as real)),
      ("cameras", VList(seq(|cams|, i requires 0 <= i < |cams| => DescriptorValue(cams[i]))))])
  }

  /** Every array of a descriptor survives the JSON round trip with its shape. */
  ghost predicate DescriptorRecoverable(d: SensorDescriptor)
  {
    && ShapeRecoverable(d.location.shape) && ShapeRecoverable(d.rotation.shape)
    && ShapeRecoverable(d.K.shape) && ShapeRecoverable(d.dist.shape)
    && forall i :: 0 <= i < |d.views| ==>
         ShapeRecoverable(d.views[i].location.shape) && ShapeRecoverable(d.views[i].rotation.shape)
  }

  ghost predicate CalibrationRecoverable(c: Calibration)
  {
    ShapeRecoverable(c.K.shape) && ShapeRecoverable(c.dist.shape)
  }

  ghost predicate RigRecoverable(rig: RigTransform)
  {
    ShapeRecoverable(rig.location.shape) && ShapeRecoverable(rig.rotation.shape)
  }

  lemma ImageRefNotAbsolute(sensor: string, k: nat)
    requires sensor != [] && sensor[0] != '/'
    ensures ImageRef(sensor, k)[0] != '/'
  {
  }

  /** The recorded reference, joined to the session root, is the file that was written. */
  lemma ImageRefRelative(base: string, sensor: string, k: nat)
    requires sensor != [] && sensor[|sensor| - 1] != '/'
    ensures Join(base, ImageRef(sensor, k)) == Join(Join(base, sensor), FrameName(k))
  {
    JoinAssociative(base, sensor, FrameName(k));
  }

  /** Two frames of a sensor have the same reference only if they are the same frame. */
  lemma ImageRefInjective(sensor: string, j: nat, k: nat)
    requires ImageRef(sensor, j) == ImageRef(sensor, k)
    ensures j == k
  {
    var a, b := PadNat(j, 5), PadNat(k, 5);
    var p := sensor + "/";
    assert ImageRef(sensor, j) == p + a + ".png";
    assert ImageRef(sensor, k) == p + b + ".png";
    assert |a| == |b|;
    assert a == ImageRef(sensor, j)[|p|..|p| + |a|];
    assert b == ImageRef(sensor, k)[|p|..|p| + |b|];
    PadNatInjective(j, k, 5);
  }

  /** In a session whose views are indexed, no two views of a sensor share an image file. */
  lemma IndexedViewsDistinct(views: seq<View>, sensor: string)
    requires IndexedViews(views, sensor)
    ensures forall i, j :: 0 <= i < j < |views| ==> views[i].image != views[j].image
  {
    forall i, j | 0 <= i < j < |views| ensures views[i].image != views[j].image {
      if views[i].image == views[j].image {
        ImageRefInjective(sensor, i, j);
      }
    }
  }

  /** A view's dict uses no sentinel key, and its arrays keep their shapes through `tolist()`. */
  lemma ViewValueEncodable(v: View)
    requires ShapeRecoverable(v.location.shape) && ShapeRecoverable(v.rotation.shape)
    ensures TagFree(ViewValue(v)) && ArraysRecoverable(ViewValue(v))
  {
    var f := ViewValue(v).fields;
    assert !HasKey(f, Tag) by {
      assert forall i :: 0 <= i < |f| ==> f[i].0 != Tag;
    }
  }

  /** A descriptor's dict uses no sentinel key, and its arrays keep their shapes through `tolist()`. */
  lemma DescriptorValueEncodable(d: SensorDescriptor)
    requires DescriptorRecoverable(d)
    ensures TagFree(DescriptorValue(d)) && ArraysRecoverable(DescriptorValue(d))
  {
    var f := DescriptorValue(d).fields;
    assert !HasKey(f, Tag) by {
      assert forall i :: 0 <= i < |f| ==> f[i].0 != Tag;
    }
    var vs := f[2].1.items;
    forall i | 0 <= i < |vs| ensures TagFree(vs[i]) && ArraysRecoverable(vs[i]) {
      ViewValueEncodable(d.views[i]);
    }
    assert TagFree(f[6].1) && ArraysRecoverable(f[6].1);
  }

  /**
   * The JSON export decodes to what the array-native export holds, whenever every
   * array in it keeps its shape through `tolist()`, except that each `dim` tuple
   * comes back as a list.
   */
  lemma DocumentRoundTrip(cams: seq<SensorDescriptor>)
    requires forall i :: 0 <= i < |cams| ==> DescriptorRecoverable(cams[i])
    ensures Decode(Encode(Document(cams))) == Some(TuplesAsLists(Document(cams)))
  {
    var doc := Document(cams);
    var f := doc.fields;
    assert !HasKey(f, Tag) by {
      assert forall i :: 0 <= i < |f| ==> f[i].0 != Tag;
    }
    var ds := f[1].1.items;
    forall i | 0 <= i < |ds| ensures TagFree(ds[i]) && ArraysRecoverable(ds[i]) {
      DescriptorValueEncodable(cams[i]);
    }
    assert TagFree(doc) && ArraysRecoverable(doc);
    DecodeEncode(doc);
  }

  /**
   * With at least one camera the two export files differ: `export.npy` keeps `dim`
   * as a tuple, while `export.json` loads it back as a list.
   */
  lemma JsonDimIsList(cams: seq<SensorDescriptor>)
    requires |cams| > 0 && forall i :: 0 <= i < |cams| ==> DescriptorRecoverable(cams[i])
    ensures Decode(Encode(Document(cams))) != Some(Document(cams))
  {
    DocumentRoundTrip(cams);
    var doc := Document(cams);
    var d0 := DescriptorValue(cams[0]);
    assert !TupleFree(d0) by { assert d0.fields[6].1.VTuple?; }
    assert !TupleFree(doc) by { assert doc.fields[1].1.items[0] == d0; }
  }

  class MaaraExport {
    const basePath: string
    const ir1Dir: string
    const ir2Dir: string
    var ir1Images: seq<View>
    var ir2Images: seq<View>
    var imageCounter: nat
    var ir1: Option<Calibration>
    var ir2: Option<Calibration>
    var l2r: Option<RigTransform>
    /** Every file written so far, in order. */
    var writes: seq<FileWrite>

    /** Both view lists hold one view per counted frame. */
    ghost predicate Paired()
      reads this
    {
      |ir1Images| == imageCounter && |ir2Images| == imageCounter
    }

    /**
     * What holds in every reachable state: the right list always matches the counter,
     * the left list can only run ahead of it (after a failed capture), and while the
     * lists are paired both reference frames `0 .. imageCounter-1` in order.
     */
    ghost predicate Valid()
      reads this
    {
      && ir1Dir == Join(basePath, Ir1) && ir2Dir == Join(basePath, Ir2)
      && |ir2Images| == imageCounter <= |ir1Images|
      && IndexedViews(ir2Images, Ir2)
      && (Paired() ==> IndexedViews(ir1Images, Ir1))
      && (forall i :: 0 <= i < |ir1Images| ==> WellShapedView(ir1Images[i]))
      && (forall i :: 0 <= i < |ir2Images| ==> WellShapedView(ir2Images[i]))
    }

    /** A new session: no views, counter at zero, nothing calibrated. */
    constructor (basePath: string)
      ensures Valid() && Paired()
      ensures this.basePath == basePath
      ensures ir1Images == [] && ir2Images == [] && imageCounter == 0
      ensures ir1.None? && ir2.None? && l2r.None?
      ensures writes == []
    {
      this.basePath := basePath;
      ir1Images, ir2Images, imageCounter := [], [], 0;
      ir1, ir2, l2r := None, None, None;
      ir1Dir := Join(basePath, Ir1);
      ir2Dir := Join(basePath, Ir2);
      writes := [];
    }

    method SetIr1Camera(K: NdArray, coeffs: NdArray, size: (int, int))
      requires Valid()
      modifies this`ir1
      ensures Valid() && ir1 == Some(Calibration(K, coeffs, size))
    {
      ir1 := Some(Calibration(K, coeffs, size));
    }

    method SetIr2Camera(K: NdArray, coeffs: NdArray, size: (int, int))
      requires Valid()
      modifies this`ir2
      ensures Valid() && ir2 == Some(Calibration(K, coeffs, size))
    {
      ir2 := Some(Calibration(K, coeffs, size));
    }

    method SetL2r(location: NdArray, rotation: NdArray)
      requires Valid()
      modifies this`l2r
      ensures Valid() && l2r == Some(RigTransform(location, rotation))
    {
      l2r := Some(RigTransform(location, rotation));
    }

    /**
     * `save_images` as written: both images are written and the left view appended
     * before the rig transform is consulted, so a missing transform (or a location
     * that does not add to the pose) fails with the left list one view ahead and the
     * counter unmoved. No calibration is checked.
     */
    method SaveImages(ir1Frame: Frame, ir2Frame: Frame, pose: seq<real>) returns (r: Outcome<ExportError>)
      requires Valid()
      modifies this`ir1Images, this`ir2Images, this`imageCounter, this`writes
      ensures Valid()
      ensures writes == old(writes) + [
        WriteImage(Join(ir1Dir, FrameName(old(imageCounter))), ir1Frame),
        WriteImage(Join(ir2Dir, FrameName(old(imageCounter))), ir2Frame)]
      ensures ir1Images == old(ir1Images) + [Ir1View(old(imageCounter), pose)]
      ensures r == if l2r.None? then Fail(RigTransformUnset)
                   else if Ir2View(old(imageCounter), pose, l2r.value).None? then Fail(LocationShapeMismatch)
                   else Pass
      ensures r.Pass? ==> (ir2Images == old(ir2Images) + [Ir2View(old(imageCounter), pose, l2r.value).value]
                        && imageCounter == old(imageCounter) + 1)
      ensures r.Fail? ==> ir2Images == old(ir2Images) && imageCounter == old(imageCounter)
      ensures old(Paired()) ==> (Paired() <==> r.Pass?)
    {
      var name := FrameName(imageCounter);
      writes := writes + [WriteImage(Join(ir1Dir, name), ir1Frame)];
      if |ir1Images| == imageCounter {
        IndexedViewsAppend(ir1Images, Ir1, Ir1View(imageCounter, pose));
      }
      ir1Images := ir1Images + [Ir1View(imageCounter, pose)];

      writes := writes + [WriteImage(Join(ir2Dir, name), ir2Frame)];
      if l2r.None? {
        return Fail(RigTransformUnset);
      }
      var v2 := Ir2View(imageCounter, pose, l2r.value);
      if v2.None? {
        return Fail(LocationShapeMismatch);
      }
      IndexedViewsAppend(ir2Images, Ir2, v2.value);
      ir2Images := ir2Images + [v2.value];
      imageCounter := imageCounter + 1;
      r := Pass;
    }

    /**
     * `save_images` that validates both calibrations and the rig transform before
     * writing anything, so a failed call changes nothing and the lists stay paired.
     */
    method SaveImagesChecked(ir1Frame: Frame, ir2Frame: Frame, pose: seq<real>) returns (r: Outcome<ExportError>)
      requires Valid()
      modifies this`ir1Images, this`ir2Images, this`imageCounter, this`writes
      ensures Valid()
      ensures r.Pass? <==> ir1.Some? && ir2.Some? && l2r.Some? && Ir2View(old(imageCounter), pose, l2r.value).Some?
      ensures r.Fail? ==> (writes == old(writes) && ir1Images == old(ir1Images)
                        && ir2Images == old(ir2Images) && imageCounter == old(imageCounter))
      ensures r.Pass? ==> writes == old(writes) + [
        WriteImage(Join(ir1Dir, FrameName(old(imageCounter))), ir1Frame),
        WriteImage(Join(ir2Dir, FrameName(old(imageCounter))), ir2Frame)]
      ensures r.Pass? ==> (ir1Images == old(ir1Images) + [Ir1View(old(imageCounter), pose)]
                        && ir2Images == old(ir2Images) + [Ir2View(old(imageCounter), pose, l2r.value).value]
                        && imageCounter == old(imageCounter) + 1)
      ensures Paired() == old(Paired())
    {
      if ir1.None? || ir2.None? {
        return Fail(CalibrationUnset);
      }
      if l2r.None? {
        return Fail(RigTransformUnset);
      }
      if Ir2View(imageCounter, pose, l2r.value).None? {
        return Fail(LocationShapeMismatch);
      }
      r := SaveImages(ir1Frame, ir2Frame, pose);
    }

    /** `export_cameras`: the two sensor descriptors, or `None` (a TypeError) while anything is unset. */
    function ExportCameras(): (r: Option<seq<SensorDescriptor>>)
      reads this
      ensures r.Some? <==> ir1.Some? && ir2.Some? && l2r.Some?
      ensures r.Some? ==> |r.value| == 2 && r.value[0].views == ir1Images && r.value[1].views == ir2Images
    {
      if ir1.Some? && ir2.Some? && l2r.Some? then
        Some(Descriptors(ir1.value, ir2.value, l2r.value, ir1Images, ir2Images))
      else None
    }

    /**
     * `save`: writes `export.npy` and `export.json`, both holding the same document;
     * the JSON one decodes back to the other, with its tuples as lists, whenever the
     * stored arrays keep their shape.
     */
    method Save() returns (r: Outcome<ExportError>)
      requires Valid()
      modifies this`writes
      ensures Valid()
      ensures r.Pass? <==> ExportCameras().Some?
      ensures r.Fail? ==> writes == old(writes)
      ensures r.Pass? ==> writes == old(writes) + [
        WriteNpy(basePath + "/export.npy", Document(ExportCameras().value)),
        WriteJson(basePath + "/export.json", Encode(Document(ExportCameras().value)))]
      ensures r.Pass? && CalibrationRecoverable(ir1.value) && CalibrationRecoverable(ir2.value)
              && RigRecoverable(l2r.value) ==>
        Decode(writes[|writes| - 1].content) == Some(TuplesAsLists(writes[|writes| - 2].content))
    {
      var cameras := ExportCameras();
      if cameras.None? {
        return Fail(CalibrationUnset);
      }
      var doc := Document(cameras.value);
      var json := Encode(doc);
      if CalibrationRecoverable(ir1.value) && CalibrationRecoverable(ir2.value) && RigRecoverable(l2r.value) {
        ExportRoundTrip();
      }
      writes := writes + [WriteNpy(basePath + "/export.npy", doc), WriteJson(basePath + "/export.json", json)];
      r := Pass;
    }

    /** The exported document survives the JSON round trip up to tuples. */
    lemma ExportRoundTrip()
      requires Valid() && ExportCameras().Some?
      requires CalibrationRecoverable(ir1.value) && CalibrationRecoverable(ir2.value) && RigRecoverable(l2r.value)
      ensures Decode(Encode(Document(ExportCameras().value))) == Some(TuplesAsLists(Document(ExportCameras().value)))
    {
      SessionRecoverable();
      DocumentRoundTrip(ExportCameras().value);
    }

    lemma SessionRecoverable()
      requires Valid() && ir1.Some? && ir2.Some? && l2r.Some?
      requires CalibrationRecoverable(ir1.value) && CalibrationRecoverable(ir2.value) && RigRecoverable(l2r.value)
      ensures forall i :: 0 <= i < 2 ==> DescriptorRecoverable(ExportCameras().value[i])
    {
      var cams := ExportCameras().value;
      assert ShapeRecoverable(Zeros3().shape) && ShapeRecoverable(Identity3().shape);
      forall i | 0 <= i < |ir1Images| ensures ShapeRecoverable(ir1Images[i].location.shape) {
        assert WellShapedView(ir1Images[i]);
      }
      forall i | 0 <= i < |ir2Images| ensures ShapeRecoverable(ir2Images[i].location.shape) {
        assert WellShapedView(ir2Images[i]);
      }
    }
  }

  /**
   * The as-written failure, replayed: a capture before `set_l2r` leaves the left list
   * one view ahead, and the next capture reuses frame 0's name for a second left view.
   */
  method UnsetRigBreaksPairing()
  {
    var s := new MaaraExport("scan");
    var r := s.SaveImages([[0]], [[0]], [1.0, 2.0, 3.0]);
    assert r == Fail(RigTransformUnset);
    assert !s.Paired() && |s.ir1Images| == 1 && s.imageCounter == 0;
    s.SetL2r(Vector([0.05, 0.0, 0.0]), Identity3());
    r := s.SaveImages([[0]], [[0]], [1.0, 2.0, 3.0]);
    assert r == Pass;
    assert |s.ir1Images| == 2 && |s.ir2Images| == 1;
    assert s.ir1Images[0].image == s.ir1Images[1].image;
  }
}

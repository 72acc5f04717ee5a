/**
 * The calibration shaping of `RealsenseDriver` (RealsenseDriver.py): the intrinsic
 * matrix of an infrared stream and the left-to-right rig transform, built from what
 * the camera SDK reports. The SDK queries themselves are parameters here.
 */
module Realsense {
  import opened Wrappers
  import opened NdArrays
  import opened ArrayCodec
  import Export

  /** The intrinsics the SDK reports for one stream. */
  datatype Intrinsics = Intrinsics(
    width: int, height: int, ppx: real, ppy: real, fx: real, fy: real, coeffs: seq<real>)

  /** The SDK's transform from one stream to another: nine rotation values and a translation. */
  datatype Extrinsics = Extrinsics(rotation: seq<real>, translation: seq<real>)

  /** What the SDK reports for the two infrared streams of the running pipeline. */
  datatype StreamCalibration = StreamCalibration(ir1: Intrinsics, ir2: Intrinsics, ir1ToIr2: Extrinsics)

  /** `camera_matrix`: `(K, dist, dim)` in the order `set_ir1_camera` / `set_ir2_camera` take them. */
  function CameraMatrix(intr: Intrinsics): (r: (NdArray, NdArray, (int, int)))
    ensures r.0.shape == [3, 3]
    ensures At2(r.0, 0, 0) == intr.fx && At2(r.0, 0, 1) == 0.0 && At2(r.0, 0, 2) == intr.ppx
    ensures At2(r.0, 1, 0) == 0.0 && At2(r.0, 1, 1) == intr.fy && At2(r.0, 1, 2) == intr.ppy
    ensures At2(r.0, 2, 0) == 0.0 && At2(r.0, 2, 1) == 0.0 && At2(r.0, 2, 2) == 1.0
    ensures r.1.shape == [|intr.coeffs|] && r.1.data == intr.coeffs
    ensures r.2 == (intr.width, intr.height)
  {
    (Matrix3([intr.fx, 0.0, intr.ppx, 0.0, intr.fy, intr.ppy, 0.0, 0.0, 1.0]),
     Vector(intr.coeffs),
     (intr.width, intr.height))
  }

  /** Reads the intrinsics back out of a `(K, dist, dim)` triple. */
  function IntrinsicsOf(K: NdArray, dist: NdArray, dim: (int, int)): Intrinsics
    requires K.shape == [3, 3]
  {
    Intrinsics(dim.0, dim.1, At2(K, 0, 2), At2(K, 1, 2), At2(K, 0, 0), At2(K, 1, 1), dist.data)
  }

  /** `ir1_camera_matrix`: the construction applied to the left stream's own intrinsics. */
  function Ir1CameraMatrix(cal: StreamCalibration): (r: (NdArray, NdArray, (int, int)))
    ensures r.0.shape == [3, 3] && IntrinsicsOf(r.0, r.1, r.2) == cal.ir1
  {
    CameraMatrixInverse(cal.ir1);
    CameraMatrix(cal.ir1)
  }

  /** `ir2_camera_matrix`: the construction applied to the right stream's own intrinsics. */
  function Ir2CameraMatrix(cal: StreamCalibration): (r: (NdArray, NdArray, (int, int)))
    ensures r.0.shape == [3, 3] && IntrinsicsOf(r.0, r.1, r.2) == cal.ir2
  {
    CameraMatrixInverse(cal.ir2);
    CameraMatrix(cal.ir2)
  }

  /**
   * `l2r_extrinsics`: `(location, rotation)` in the order `set_l2r` takes them; the
   * rotation is the nine values reshaped row-major, numpy's ValueError (`None`) when
   * there are not nine.
   */
  function L2rExtrinsics(e: Extrinsics): (r: Option<(NdArray, NdArray)>)
    ensures r.Some? <==> |e.rotation| == 9
    ensures r.Some? ==> r.value.0.shape == [|e.translation|] && r.value.0.data == e.translation
    ensures r.Some? ==> (r.value.1.shape == [3, 3] &&
      forall i, j :: 0 <= i < 3 && 0 <= j < 3 ==> At2(r.value.1, i, j) == e.rotation[3 * i + j])
  {
    assert Product([3, 3]) == 9 by { ProductOfTwo([3, 3]); }
    match Reshape(Vector(e.rotation), [3, 3])
    case None => None
    case Some(rotation) => Some((Vector(e.translation), rotation))
  }

  /**
   * `l2r_extrinsics` read the way the SDK lays the rotation out. librealsense documents
   * `rs2_extrinsics.rotation` as column-major, so entry `(i, j)` is value `3 * j + i`:
   * `reshape(3, 3, order='F')`, or equally `reshape(3, 3).T`. This is the matrix that maps
   * a point in the left sensor's frame into the right sensor's; a consumer that reads the
   * columns as the right sensor's axes in the left sensor's frame wants the row-major one.
   */
  function L2rExtrinsicsColumnMajor(e: Extrinsics): (r: Option<(NdArray, NdArray)>)
    ensures r.Some? <==> |e.rotation| == 9
    ensures r.Some? ==> r.value.0.shape == [|e.translation|] && r.value.0.data == e.translation
    ensures r.Some? ==> (r.value.1.shape == [3, 3] &&
      forall i, j :: 0 <= i < 3 && 0 <= j < 3 ==> At2(r.value.1, i, j) == e.rotation[3 * j + i])
  {
    if |e.rotation| != 9 then None
    else
      var m := e.rotation;
      var rotation := Matrix3([m[0], m[3], m[6], m[1], m[4], m[7], m[2], m[5], m[8]]);
      assert forall i, j :: 0 <= i < 3 && 0 <= j < 3 ==> At2(rotation, i, j) == m[3 * j + i] by {
        forall i, j | 0 <= i < 3 && 0 <= j < 3 ensures At2(rotation, i, j) == m[3 * j + i] {
          assert 3 * j + i in {0, 1, 2, 3, 4, 5, 6, 7, 8};
          assert i * 3 + j == 3 * i + j;
        }
      }
      Some((Vector(e.translation), rotation))
  }

  /**
   * `rs2_transform_point_to_point` without its translation: the rotation the SDK
   * applies to a point, reading its nine values column-major.
   */
  function SdkRotate(rotation: seq<real>, X: real, Y: real, Z: real): seq<real>
    requires |rotation| == 9
  {
    seq(3, i requires 0 <= i < 3 => rotation[i] * X + rotation[3 + i] * Y + rotation[6 + i] * Z)
  }

  /** `K @ [X, Y, Z]` for a 3x3 `K`. */
  function MatVec3(K: NdArray, X: real, Y: real, Z: real): seq<real>
    requires K.shape == [3, 3]
  {
    seq(3, i requires 0 <= i < 3 => At2(K, i, 0) * X + At2(K, i, 1) * Y + At2(K, i, 2) * Z)
  }

  /** The triple determines the intrinsics it was built from. */
  lemma CameraMatrixInverse(intr: Intrinsics)
    ensures IntrinsicsOf(CameraMatrix(intr).0, CameraMatrix(intr).1, CameraMatrix(intr).2) == intr
  {
  }

  /**
   * The intrinsic matrix is the pinhole projection: a point `(X, Y, Z)` in the sensor
   * frame maps to the homogeneous pixel `(fx X + ppx Z, fy Y + ppy Z, Z)`.
   */
  lemma CameraMatrixProjects(intr: Intrinsics, X: real, Y: real, Z: real)
    ensures MatVec3(CameraMatrix(intr).0, X, Y, Z) ==
      [intr.fx * X + intr.ppx * Z, intr.fy * Y + intr.ppy * Z, Z]
  {
    var K := CameraMatrix(intr).0;
    var p := MatVec3(K, X, Y, Z);
    assert p[0] == intr.fx * X + intr.ppx * Z;
    assert p[1] == intr.fy * Y + intr.ppy * Z;
    assert p[2] == Z;
  }

  /** Flattening the rotation row-major gives back the SDK's nine values. */
  lemma RotationRavels(e: Extrinsics)
    requires |e.rotation| == 9
    ensures L2rExtrinsics(e).value.1.data == e.rotation
  {
  }

  /** The column-major reading applies exactly the rotation the SDK applies to a point. */
  lemma ColumnMajorRotates(e: Extrinsics, X: real, Y: real, Z: real)
    requires |e.rotation| == 9
    ensures MatVec3(L2rExtrinsicsColumnMajor(e).value.1, X, Y, Z) == SdkRotate(e.rotation, X, Y, Z)
  {
    var R := L2rExtrinsicsColumnMajor(e).value.1;
    var p, q := MatVec3(R, X, Y, Z), SdkRotate(e.rotation, X, Y, Z);
    forall i | 0 <= i < 3 ensures p[i] == q[i] {
      assert At2(R, i, 0) == e.rotation[i];
      assert At2(R, i, 1) == e.rotation[3 + i];
      assert At2(R, i, 2) == e.rotation[6 + i];
    }
  }

  /** The source's row-major `reshape(3, 3)` is the transpose of the rotation the SDK describes. */
  lemma RowMajorTransposes(e: Extrinsics)
    requires |e.rotation| == 9
    ensures forall i, j :: 0 <= i < 3 && 0 <= j < 3 ==>
      At2(L2rExtrinsics(e).value.1, i, j) == At2(L2rExtrinsicsColumnMajor(e).value.1, j, i)
  {
  }

  /**
   * A quarter turn about the optical axis, as the SDK reports it, sends the x axis to
   * the y axis; the source's matrix sends it to minus the y axis instead.
   */
  lemma RowMajorMisrotates(e: Extrinsics)
    requires e.rotation == [0.0, 1.0, 0.0, -1.0, 0.0, 0.0, 0.0, 0.0, 1.0]
    ensures SdkRotate(e.rotation, 1.0, 0.0, 0.0) == [0.0, 1.0, 0.0]
    ensures MatVec3(L2rExtrinsics(e).value.1, 1.0, 0.0, 0.0) == [0.0, -1.0, 0.0]
  {
    var R := L2rExtrinsics(e).value.1;
    assert At2(R, 0, 0) == 0.0 && At2(R, 1, 0) == -1.0 && At2(R, 2, 0) == 0.0;
  }

  /**
   * A session calibrated from the driver stores only arrays whose shape survives the
   * JSON export, so its `export.json` decodes to its `export.npy`.
   */
  lemma DriverCalibrationRecoverable(cal: StreamCalibration)
    requires |cal.ir1ToIr2.rotation| == 9
    ensures Export.CalibrationRecoverable(Export.Calibration(Ir1CameraMatrix(cal).0, Ir1CameraMatrix(cal).1, Ir1CameraMatrix(cal).2))
    ensures Export.CalibrationRecoverable(Export.Calibration(Ir2CameraMatrix(cal).0, Ir2CameraMatrix(cal).1, Ir2CameraMatrix(cal).2))
    ensures Export.RigRecoverable(Export.RigTransform(L2rExtrinsics(cal.ir1ToIr2).value.0, L2rExtrinsics(cal.ir1ToIr2).value.1))
    ensures Export.RigRecoverable(Export.RigTransform(
      L2rExtrinsicsColumnMajor(cal.ir1ToIr2).value.0, L2rExtrinsicsColumnMajor(cal.ir1ToIr2).value.1))
  {
  }
}

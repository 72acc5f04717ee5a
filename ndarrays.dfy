/**
 * numpy arrays as the scanner uses them: a shape and the elements in C (row-major)
 * order. Elements are reals; numpy's dtypes are not distinguished.
 */
module NdArrays {
  import opened Wrappers

  /** The number of elements of an array of the given shape. */
  function Product(shape: seq<nat>): nat
  {
    if shape == [] then 1 else shape[0] * Product(shape[1..])
  }

  datatype ArrayRep = ArrayRep(shape: seq<nat>, data: seq<real>)

  /** An array whose element count matches its shape, as every numpy array's does. */
  type NdArray = a: ArrayRep | |a.data| == Product(a.shape) witness ArrayRep([], [0.0])

  /** `np.array(v)` for a flat list `v`: shape `(len(v),)`. */
  function Vector(v: seq<real>): (a: NdArray)
    ensures a.shape == [|v|] && a.data == v
  {
    assert Product([|v|]) == |v| * Product([]);
    ArrayRep([|v|], v)
  }

  /** `np.zeros(3)`. */
  function Zeros3(): (a: NdArray)
    ensures a.shape == [3] && |a.data| == 3 && forall i :: 0 <= i < 3 ==> a.data[i] == 0.0
  {
    Vector([0.0, 0.0, 0.0])
  }

  function Matrix3(data: seq<real>): (a: NdArray)
    requires |data| == 9
    ensures a.shape == [3, 3] && a.data == data
  {
    assert Product([3, 3]) == 3 * Product([3]);
    assert Product([3]) == 3 * Product([]);
    ArrayRep([3, 3], data)
  }

  /** Entry `(i, j)` of a two-dimensional array, read at `i * columns + j` in the row-major data. */
  function At2(a: NdArray, i: nat, j: nat): real
    requires |a.shape| == 2 && i < a.shape[0] && j < a.shape[1]
  {
    ProductOfTwo(a.shape);
    RowMajorBound(i, j, a.shape[0], a.shape[1]);
    a.data[i * a.shape[1] + j]
  }

  /** `np.identity(3)`. */
  function Identity3(): (a: NdArray)
    ensures a.shape == [3, 3]
    ensures forall i, j :: 0 <= i < 3 && 0 <= j < 3 ==> At2(a, i, j) == if i == j then 1.0 else 0.0
  {
    Matrix3([1.0, 0.0, 0.0, 0.0, 1.0, 0.0, 0.0, 0.0, 1.0])
  }

  /** `a.reshape(shape)`: same elements in the same order, or numpy's ValueError when the sizes differ. */
  function Reshape(a: NdArray, shape: seq<nat>): (r: Option<NdArray>)
    ensures r.Some? <==> Product(shape) == |a.data|
    ensures r.Some? ==> r.value.shape == shape && r.value.data == a.data
  {
    if Product(shape) == |a.data| then Some(ArrayRep(shape, a.data)) else None
  }

  /**
   * `a + b` on two arrays of the same shape, element by element; `None` when the
   * shapes differ (numpy's broadcasting of size-1 axes is not modelled).
   */
  function Add(a: NdArray, b: NdArray): (r: Option<NdArray>)
    ensures r.Some? <==> a.shape == b.shape
    ensures r.Some? ==> r.value.shape == a.shape && |r.value.data| == |a.data|
    ensures r.Some? ==> forall i :: 0 <= i < |a.data| ==> r.value.data[i] == a.data[i] + b.data[i]
  {
    if a.shape == b.shape then
      Some(ArrayRep(a.shape, seq(|a.data|, i requires 0 <= i < |a.data| => a.data[i] + b.data[i])))
    else None
  }

  /** `v[:n]` of a flat vector, as an array of its own: at most `n` leading elements. */
  function Head(v: seq<real>, n: nat): (a: NdArray)
    ensures a.shape == [if |v| < n then |v| else n]
    ensures a.data == v[..if |v| < n then |v| else n]
  {
    Vector(if |v| < n then v else v[..n])
  }

  lemma ProductOfTwo(shape: seq<nat>)
    requires |shape| == 2
    ensures Product(shape) == shape[0] * shape[1]
  {
    assert Product(shape[1..]) == shape[1] * Product(shape[2..]);
  }

  lemma MulMonotone(a: nat, b: nat, n: nat)
    requires a <= b
    ensures a * n <= b * n
  {
  }

  lemma RowMajorBound(i: nat, j: nat, rows: nat, cols: nat)
    requires i < rows && j < cols
    ensures i * cols + j < rows * cols
  {
    MulMonotone(i + 1, rows, cols);
  }
}

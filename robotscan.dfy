/**
 * The boustrophedon grid generators of RobotScan.py and the name each capture is
 * saved under. `grid_scan` visits every `xstep` along a row; `grid_scan_no_stop`
 * yields only the two ends of each row. Rows run from `top` downwards and
 * alternate direction, the first one left to right.
 */
module RobotScan {
  import opened Wrappers
  import opened PyFormat
  import NdArrays

  /** `np.array([x, ypos, z])`: one target position of the arm, in millimetres. */
  datatype Point = Point(x: int, y: int, z: int)

  /** Whether `range` with this `stop` and `step` still yields `v`. */
  predicate InRange(v: int, stop: int, step: int)
  {
    if step > 0 then v < stop else v > stop
  }

  /** Python's `range(start, stop, step)` for a non-zero step (a zero step is a ValueError). */
  function PyRange(start: int, stop: int, step: int): (r: seq<int>)
    requires step != 0
    ensures |r| == 0 <==> !InRange(start, stop, step)
    ensures |r| > 0 ==> r[0] == start
    ensures forall k :: 0 <= k < |r| ==> InRange(r[k], stop, step)
    decreases if step > 0 then stop - start else start - stop
  {
    if InRange(start, stop, step) then [start] + PyRange(start + step, stop, step) else []
  }

  /** `width//2`; floor division by 2 and Dafny's Euclidean division agree. */
  function Half(width: int): int
  {
    width / 2
  }

  /** The x values of a left-to-right row: `range(-width//2, width//2 + xstep, xstep)`. */
  function AscendingXs(width: int, xstep: int): (r: seq<int>)
    requires xstep != 0
    ensures |r| > 0 <==> InRange(Half(-width), Half(width) + xstep, xstep)
    ensures |r| > 0 ==> r[0] == Half(-width)
    ensures forall k :: 0 <= k < |r| ==> InRange(r[k], Half(width) + xstep, xstep)
  {
    PyRange(Half(-width), Half(width) + xstep, xstep)
  }

  /** The x values of a right-to-left row: `range(width//2, -width//2 - xstep, -xstep)`. */
  function DescendingXs(width: int, xstep: int): (r: seq<int>)
    requires xstep != 0
    ensures |r| > 0 <==> InRange(Half(width), Half(-width) - xstep, -xstep)
    ensures |r| > 0 ==> r[0] == Half(width)
    ensures forall k :: 0 <= k < |r| ==> InRange(r[k], Half(-width) - xstep, -xstep)
  {
    PyRange(Half(width), Half(-width) - xstep, -xstep)
  }

  /** The z values of the rows: `range(top, bottom - zstep, -zstep)`. */
  function ZRows(bottom: int, top: int, zstep: int): (r: seq<int>)
    requires zstep != 0
    ensures |r| > 0 <==> InRange(top, bottom - zstep, -zstep)
    ensures |r| > 0 ==> r[0] == top
    ensures forall k :: 0 <= k < |r| ==> InRange(r[k], bottom - zstep, -zstep)
  {
    PyRange(top, bottom - zstep, -zstep)
  }

  /** The points with x values `xs` at depth `ypos` and height `z`, in order. */
  function PointsAt(xs: seq<int>, ypos: int, z: int): (r: seq<Point>)
    ensures |r| == |xs|
  {
    seq(|xs|, k requires 0 <= k < |xs| => Point(xs[k], ypos, z))
  }

  /** The points of one row at height `z`, in the order they are yielded. */
  function Row(width: int, xstep: int, ypos: int, z: int, left: bool): seq<Point>
    requires xstep != 0
  {
    PointsAt(if left then AscendingXs(width, xstep) else DescendingXs(width, xstep), ypos, z)
  }

  /** Whether row `j` is a left-to-right row: the rows alternate, the first one left to right. */
  function Even(j: nat): bool
  {
    if j == 0 then true else !Even(j - 1)
  }

  /** The first `i` rows of `grid_scan`: row `j` runs left to right exactly when `j` is even. */
  function Sweep(width: int, xstep: int, ypos: int, zs: seq<int>, i: nat): seq<Point>
    requires i <= |zs| && (xstep != 0 || i == 0)
  {
    if i == 0 then []
    else Sweep(width, xstep, ypos, zs, i - 1) + Row(width, xstep, ypos, zs[i - 1], Even(i - 1))
  }

  /** Everything `grid_scan` yields, or `None` for the ValueError of a zero step. */
  function GridScanPath(width: int, bottom: int, top: int, xstep: int, zstep: int, ypos: int): (r: Option<seq<Point>>)
    ensures r.None? <==> zstep == 0 || (xstep == 0 && ZRows(bottom, top, zstep) != [])
    ensures r.Some? ==> forall p :: p in r.value ==> p.y == ypos && p.z in ZRows(bottom, top, zstep)
  {
    if zstep == 0 then None
    else
      var zs := ZRows(bottom, top, zstep);
      if xstep == 0 && zs != [] then None
      else if xstep == 0 then Some(Sweep(width, xstep, ypos, zs, |zs|))
      else
        SweepPoints(width, xstep, ypos, zs, |zs|);
        assert zs[..|zs|] == zs;
        Some(Sweep(width, xstep, ypos, zs, |zs|))
  }

  /** The two ends of a row, left end first when `left`. */
  function EndpointRow(width: int, ypos: int, z: int, left: bool): seq<Point>
  {
    if left then [Point(Half(-width), ypos, z), Point(Half(width), ypos, z)]
    else [Point(Half(width), ypos, z), Point(Half(-width), ypos, z)]
  }

  /** The first `i` rows of `grid_scan_no_stop`. */
  function EndpointSweep(width: int, ypos: int, zs: seq<int>, i: nat): seq<Point>
    requires i <= |zs|
  {
    if i == 0 then []
    else EndpointSweep(width, ypos, zs, i - 1) + EndpointRow(width, ypos, zs[i - 1], Even(i - 1))
  }

  /** Everything `grid_scan_no_stop` yields, or `None` for the ValueError of a zero `zstep`. */
  function GridScanNoStopPath(width: int, bottom: int, top: int, zstep: int, ypos: int): (r: Option<seq<Point>>)
    ensures r.None? <==> zstep == 0
    ensures r.Some? ==> |r.value| == 2 * |ZRows(bottom, top, zstep)|
  {
    if zstep == 0 then None
    else
      var zs := ZRows(bottom, top, zstep);
      if zs == [] then Some(EndpointSweep(width, ypos, zs, |zs|))
      else
        EndpointSweepLayout(width, ypos, zs, |zs|, 0);
        Some(EndpointSweep(width, ypos, zs, |zs|))
  }

  /** `"%.4d-%.4d" % (x + 500, z)`: the name a capture at `p` is saved under. */
  function CaptureName(p: Point): (r: string)
    ensures |r| >= 9
    ensures 0 <= p.x + 500 <= 9999 && 0 <= p.z <= 9999 ==> |r| == 9 && r[4] == '-'
  {
    assert Pow10(4) == 10000;
    FormatInt(p.x + 500, 4) + "-" + FormatInt(p.z, 4)
  }

  /**
   * `grid_scan`, collected: the row loop walks the `range` of z values, flips `left`
   * after every row and the inner loop walks x in the row's direction.
   */
  method GridScan(width: int, bottom: int, top: int, xstep: int, zstep: int, ypos: int)
    returns (r: Option<seq<Point>>)
    ensures r == GridScanPath(width, bottom, top, xstep, zstep, ypos)
  {
    if zstep == 0 {
      return None;
    }
    var zs := PyRange(top, bottom - zstep, -zstep);
    var points: seq<Point> := [];
    var left := true;
    for i := 0 to |zs|
      invariant xstep != 0 || i == 0
      invariant points == Sweep(width, xstep, ypos, zs, i)
      invariant left == Even(i)
    {
      var z := zs[i];
      if xstep == 0 {
        return None;
      }
      SweepNext(width, xstep, ypos, zs, i);
      if left {
        points := AppendRow(points, Half(-width), Half(width) + xstep, xstep, ypos, z);
        left := false;
      } else {
        points := AppendRow(points, Half(width), Half(-width) - xstep, -xstep, ypos, z);
        left := true;
      }
    }
    return Some(points);
  }

  /** `grid_scan_no_stop`, collected. */
  method GridScanNoStop(width: int, bottom: int, top: int, zstep: int, ypos: int)
    returns (r: Option<seq<Point>>)
    ensures r == GridScanNoStopPath(width, bottom, top, zstep, ypos)
  {
    if zstep == 0 {
      return None;
    }
    var zs := PyRange(top, bottom - zstep, -zstep);
    var points: seq<Point> := [];
    var left := true;
    for i := 0 to |zs|
      invariant points == EndpointSweep(width, ypos, zs, i)
      invariant left == Even(i)
    {
      var z := zs[i];
      if left {
        points := points + [Point(Half(-width), ypos, z)];
        points := points + [Point(Half(width), ypos, z)];
        left := false;
      } else {
        points := points + [Point(Half(width), ypos, z)];
        points := points + [Point(Half(-width), ypos, z)];
        left := true;
      }
    }
    return Some(points);
  }

  lemma SweepNext(width: int, xstep: int, ypos: int, zs: seq<int>, i: nat)
    requires xstep != 0 && i < |zs|
    ensures Sweep(width, xstep, ypos, zs, i + 1) == Sweep(width, xstep, ypos, zs, i) + Row(width, xstep, ypos, zs[i], Even(i))
  {
  }

  /** The inner `for x in range(x0, stop, step)` loop, appending one point per x. */
  method AppendRow(points: seq<Point>, x0: int, stop: int, step: int, ypos: int, z: int)
    returns (r: seq<Point>)
    requires step != 0
    ensures r == points + PointsAt(PyRange(x0, stop, step), ypos, z)
  {
    r := points;
    var x := x0;
    while InRange(x, stop, step)
      invariant r + PointsAt(PyRange(x, stop, step), ypos, z) == points + PointsAt(PyRange(x0, stop, step), ypos, z)
      decreases |PyRange(x, stop, step)|
    {
      RowCons(x, stop, step, ypos, z);
      r := r + [Point(x, ypos, z)];
      x := x + step;
    }
  }

  lemma RowCons(x: int, stop: int, step: int, ypos: int, z: int)
    requires step != 0 && InRange(x, stop, step)
    ensures PointsAt(PyRange(x, stop, step), ypos, z) == [Point(x, ypos, z)] + PointsAt(PyRange(x + step, stop, step), ypos, z)
  {
  }

  /** Row `j` runs left to right exactly when `j` is even. */
  lemma {:induction false} EvenParity(j: nat)
    ensures Even(j) <==> j % 2 == 0
  {
    if j > 0 {
      EvenParity(j - 1);
    }
  }

  /** `grid_scan_no_stop` yields two points per row, the row's ends, in the row's direction. */
  lemma {:induction false} EndpointSweepLayout(width: int, ypos: int, zs: seq<int>, i: nat, j: nat)
    requires j < i <= |zs|
    ensures |EndpointSweep(width, ypos, zs, i)| == 2 * i
    ensures EndpointSweep(width, ypos, zs, i)[2 * j] == Point(if Even(j) then Half(-width) else Half(width), ypos, zs[j])
    ensures EndpointSweep(width, ypos, zs, i)[2 * j + 1] == Point(if Even(j) then Half(width) else Half(-width), ypos, zs[j])
  {
    if j < i - 1 {
      EndpointSweepLayout(width, ypos, zs, i - 1, j);
    } else if i > 1 {
      EndpointSweepLayout(width, ypos, zs, i - 1, 0);
    }
  }

  /** `range` yields `start, start + step, ...` for as long as the values stay on the near side of `stop`. */
  lemma {:induction false} PyRangeElements(start: int, stop: int, step: int)
    requires step != 0
    ensures forall k :: 0 <= k < |PyRange(start, stop, step)| ==> PyRange(start, stop, step)[k] == start + k * step
    ensures forall k :: 0 <= k < |PyRange(start, stop, step)| ==> InRange(PyRange(start, stop, step)[k], stop, step)
    ensures !InRange(start + |PyRange(start, stop, step)| * step, stop, step)
    decreases if step > 0 then stop - start else start - stop
  {
    if InRange(start, stop, step) {
      var r, t := PyRange(start, stop, step), PyRange(start + step, stop, step);
      PyRangeElements(start + step, stop, step);
      forall k | 1 <= k < |r| ensures r[k] == start + k * step {
        assert r[k] == t[k - 1];
        MulSucc(k - 1, step);
      }
      MulSucc(|t|, step);
    }
  }

  lemma MulSucc(k: int, step: int)
    ensures (k + 1) * step == k * step + step
  {
  }

  /** An element of a `range` at index `k`, as a lemma a caller can instantiate. */
  lemma RangeAt(start: int, stop: int, step: int, k: nat)
    requires step != 0 && k < |PyRange(start, stop, step)|
    ensures InRange(start + k * step, stop, step)
  {
    PyRangeElements(start, stop, step);
    assert PyRange(start, stop, step)[k] == start + k * step;
  }

  /** The length of a `range` is the first count at which it leaves the interval. */
  lemma RangeCount(start: int, stop: int, step: int, n: nat)
    requires step != 0
    requires forall k :: 0 <= k < n ==> InRange(start + k * step, stop, step)
    requires !InRange(start + n * step, stop, step)
    ensures |PyRange(start, stop, step)| == n
  {
    PyRangeElements(start, stop, step);
    if |PyRange(start, stop, step)| > n {
      RangeAt(start, stop, step, n);
      assert false;
    }
  }

  /** Every value a member of a `range` takes is `start` plus a whole number of steps. */
  lemma RangeIndex(start: int, stop: int, step: int, v: int) returns (k: nat)
    requires step != 0 && v in PyRange(start, stop, step)
    ensures k < |PyRange(start, stop, step)| && v == start + k * step
  {
    PyRangeElements(start, stop, step);
    var r := PyRange(start, stop, step);
    k :| k < |r| && r[k] == v;
  }

  /** A `range` stays between `start` (included) and `stop` (excluded). */
  lemma {:induction false} PyRangeBounds(start: int, stop: int, step: int)
    requires step != 0
    ensures forall v :: v in PyRange(start, stop, step) ==>
      if step > 0 then start <= v < stop else stop < v <= start
    decreases if step > 0 then stop - start else start - stop
  {
    if InRange(start, stop, step) {
      PyRangeBounds(start + step, stop, step);
    }
  }

  /** Reflecting a `range` about `c / 2` reflects every value it yields: `range(c - a, c - b, -s)` is `c - range(a, b, s)`. */
  lemma {:induction false} PyRangeReflect(a: int, b: int, s: int, c: int)
    requires s != 0
    ensures |PyRange(c - a, c - b, -s)| == |PyRange(a, b, s)|
    ensures forall k :: 0 <= k < |PyRange(a, b, s)| ==> PyRange(c - a, c - b, -s)[k] == c - PyRange(a, b, s)[k]
    decreases if s > 0 then b - a else a - b
  {
    if InRange(a, b, s) {
      PyRangeReflect(a + s, b, s, c);
      assert c - (a + s) == (c - a) + -s;
    }
  }

  /**
   * A right-to-left row visits the mirror images of a left-to-right row's x values,
   * about the centre of `-width//2` and `width//2`: same count, `x` turned into
   * `-width//2 + width//2 - x`.
   */
  lemma RowsMirror(width: int, xstep: int)
    requires xstep != 0
    ensures |DescendingXs(width, xstep)| == |AscendingXs(width, xstep)|
    ensures forall k :: 0 <= k < |AscendingXs(width, xstep)| ==>
      DescendingXs(width, xstep)[k] == Half(-width) + Half(width) - AscendingXs(width, xstep)[k]
  {
    var lo, hi := Half(-width), Half(width);
    PyRangeReflect(lo, hi + xstep, xstep, lo + hi);
    assert lo + hi - lo == hi && lo + hi - (hi + xstep) == lo - xstep;
  }

  /** Rows of points keep their x values in order at the row's height and depth. */
  lemma PointsAtMembers(xs: seq<int>, ypos: int, z: int)
    ensures forall p :: p in PointsAt(xs, ypos, z) ==> p.x in xs && p.y == ypos && p.z == z
  {
    var r := PointsAt(xs, ypos, z);
    forall p | p in r ensures p.x in xs && p.y == ypos && p.z == z {
      var k :| 0 <= k < |r| && r[k] == p;
      assert p.x == xs[k];
    }
  }

  /** With a positive `xstep` every row of `grid_scan` has as many points as the first. */
  lemma {:induction false} SweepLength(width: int, xstep: int, ypos: int, zs: seq<int>, i: nat)
    requires xstep != 0 && i <= |zs|
    ensures |Sweep(width, xstep, ypos, zs, i)| == i * |AscendingXs(width, xstep)|
  {
    if i > 0 {
      SweepLength(width, xstep, ypos, zs, i - 1);
      RowsMirror(width, xstep);
      MulSucc(i - 1, |AscendingXs(width, xstep)|);
    }
  }

  /**
   * `grid_scan` lays its rows end to end: row `j`, left to right exactly when `j` is
   * even, follows the first `j` rows (which `SweepLength` puts at `j * n` points).
   */
  lemma {:induction false} SweepRow(width: int, xstep: int, ypos: int, zs: seq<int>, n: nat, i: nat, j: nat)
    requires xstep != 0 && j < i <= |zs| && n == |AscendingXs(width, xstep)|
    ensures |Sweep(width, xstep, ypos, zs, j)| + n <= |Sweep(width, xstep, ypos, zs, i)|
    ensures Sweep(width, xstep, ypos, zs, i)[|Sweep(width, xstep, ypos, zs, j)|..|Sweep(width, xstep, ypos, zs, j)| + n]
      == Row(width, xstep, ypos, zs[j], Even(j))
  {
    var prev, last := Sweep(width, xstep, ypos, zs, i - 1), Row(width, xstep, ypos, zs[i - 1], Even(i - 1));
    var m := |Sweep(width, xstep, ypos, zs, j)|;
    RowLength(width, xstep, ypos, zs[i - 1], Even(i - 1));
    if j < i - 1 {
      SweepRow(width, xstep, ypos, zs, n, i - 1, j);
      SliceOfPrefix(prev, last, m, m + n);
    } else {
      RowLength(width, xstep, ypos, zs[j], Even(j));
      SliceOfSuffix(prev, last);
    }
  }

  /** A row has as many points in either direction. */
  lemma RowLength(width: int, xstep: int, ypos: int, z: int, left: bool)
    requires xstep != 0
    ensures |Row(width, xstep, ypos, z, left)| == |AscendingXs(width, xstep)|
  {
    RowsMirror(width, xstep);
  }

  lemma SliceOfPrefix<T>(s: seq<T>, t: seq<T>, lo: nat, hi: nat)
    requires lo <= hi <= |s|
    ensures (s + t)[lo..hi] == s[lo..hi]
  {
  }

  lemma SliceOfSuffix<T>(s: seq<T>, t: seq<T>)
    ensures (s + t)[|s|..|s| + |t|] == t
  {
  }

  /** Every point `grid_scan` yields has the depth `ypos`, the height of one of its rows and an x of a row. */
  lemma {:induction false} SweepPoints(width: int, xstep: int, ypos: int, zs: seq<int>, i: nat)
    requires xstep != 0 && i <= |zs|
    ensures forall p :: p in Sweep(width, xstep, ypos, zs, i) ==>
      p.y == ypos && p.z in zs[..i] && (p.x in AscendingXs(width, xstep) || p.x in DescendingXs(width, xstep))
  {
    if i > 0 {
      SweepPoints(width, xstep, ypos, zs, i - 1);
      PointsAtMembers(AscendingXs(width, xstep), ypos, zs[i - 1]);
      PointsAtMembers(DescendingXs(width, xstep), ypos, zs[i - 1]);
      assert zs[..i] == zs[..i - 1] + [zs[i - 1]];
    }
  }

  /**
   * With positive steps every point of `grid_scan` lies in the box the arguments
   * name, give or take less than a step at the row ends and the bottom:
   * `-width//2 - xstep < x < width//2 + xstep`, `bottom - zstep < z <= top`, `y == ypos`.
   */
  lemma GridScanBounded(width: int, bottom: int, top: int, xstep: int, zstep: int, ypos: int)
    requires xstep > 0 && zstep > 0
    ensures GridScanPath(width, bottom, top, xstep, zstep, ypos).Some?
    ensures forall p :: p in GridScanPath(width, bottom, top, xstep, zstep, ypos).value ==>
      Half(-width) - xstep < p.x < Half(width) + xstep && bottom - zstep < p.z <= top && p.y == ypos
  {
    var zs := ZRows(bottom, top, zstep);
    var lo, hi := Half(-width), Half(width);
    SweepPoints(width, xstep, ypos, zs, |zs|);
    PyRangeBounds(lo, hi + xstep, xstep);
    PyRangeBounds(hi, lo - xstep, -xstep);
    PyRangeBounds(top, bottom - zstep, -zstep);
    assert zs[..|zs|] == zs;
  }

  lemma DivStep(x: int, s: int, y: int)
    requires s > 0 && y == x + s
    ensures y / s == x / s + 1
  {
    var q, r := x / s, x % s;
    var q', r' := y / s, y % s;
    assert (q' - q - 1) * s == r - r';
    UnitMultiple(q' - q - 1, s);
  }

  lemma UnitMultiple(d: int, s: int)
    requires s > 0 && -s < d * s < s
    ensures d == 0
  {
    if d >= 1 {
      NdArrays.MulMonotone(1, d, s);
    }
  }

  /** A `range` with a positive step has `ceil((stop - start) / step)` elements, none when `stop <= start`. */
  lemma {:induction false} RangeLength(start: int, stop: int, step: int)
    requires step > 0
    ensures |PyRange(start, stop, step)| == if start < stop then (stop - start - 1) / step + 1 else 0
    decreases stop - start
  {
    if start < stop {
      RangeLength(start + step, stop, step);
      if start + step < stop {
        DivStep(stop - (start + step) - 1, step, stop - start - 1);
      } else {
        DivIs(stop - start - 1, step, 0);
      }
    }
  }

  /** The same count for a negative step, mirrored: `ceil((start - stop) / -step)`. */
  lemma RangeLengthDown(start: int, stop: int, step: int)
    requires step < 0
    ensures |PyRange(start, stop, step)| == if stop < start then (start - stop - 1) / -step + 1 else 0
  {
    PyRangeReflect(-start, -stop, -step, 0);
    RangeLength(-start, -stop, -step);
  }

  /**
   * `grid_scan` with positive steps yields `ceil((top - bottom + zstep) / zstep)` rows
   * of `ceil((width//2 - -width//2 + xstep) / xstep)` points each.
   */
  lemma GridScanLength(width: int, bottom: int, top: int, xstep: int, zstep: int, ypos: int)
    requires xstep > 0 && zstep > 0
    ensures GridScanPath(width, bottom, top, xstep, zstep, ypos).Some?
    ensures |ZRows(bottom, top, zstep)| == if bottom - zstep < top then (top - bottom + zstep - 1) / zstep + 1 else 0
    ensures Half(-width) <= Half(width) ==> |AscendingXs(width, xstep)| == (Half(width) - Half(-width) + xstep - 1) / xstep + 1
    ensures |GridScanPath(width, bottom, top, xstep, zstep, ypos).value| == |ZRows(bottom, top, zstep)| * |AscendingXs(width, xstep)|
  {
    RangeLengthDown(top, bottom - zstep, -zstep);
    RangeLength(Half(-width), Half(width) + xstep, xstep);
    SweepLength(width, xstep, ypos, ZRows(bottom, top, zstep), |ZRows(bottom, top, zstep)|);
  }

  lemma DivIs(x: int, s: int, q: int)
    requires s > 0 && q * s <= x < q * s + s
    ensures x / s == q
  {
    var q', r' := x / s, x % s;
    assert (q' - q) * s == (x - q * s) - r';
    UnitMultiple(q' - q, s);
  }

  /** The scan RobotScan.py runs has 51 rows: `range(700, 190, -10)`. */
  lemma DefaultRowCount(bottom: int, top: int, step: int)
    requires bottom == 200 && top == 700 && step == 10
    ensures |ZRows(bottom, top, step)| == 51
  {
    RangeLengthDown(top, bottom - step, -step);
    DivIs(top - (bottom - step) - 1, -(-step), 50);
  }

  /** Each of its rows has 101 points: `range(-500, 510, 10)`. */
  lemma DefaultRowLength(width: int, step: int)
    requires width == 1000 && step == 10
    ensures Half(-width) == -500 && Half(width) == 500
    ensures |AscendingXs(width, step)| == 101
  {
    RangeLength(Half(-width), Half(width) + step, step);
    DivIs(Half(width) + step - Half(-width) - 1, step, 100);
  }

  /**
   * The scan RobotScan.py runs, `grid_scan(1000, 200, 700, 10, 10, 400)`, has 51 rows
   * of 101 points, the count its progress bar is given. (The arguments are parameters
   * pinned by the precondition, so that the verifier does not evaluate the
   * 5151-point path.)
   */
  lemma DefaultScanLength(width: int, bottom: int, top: int, step: int, ypos: int)
    requires width == 1000 && bottom == 200 && top == 700 && step == 10 && ypos == 400
    ensures GridScanPath(width, bottom, top, step, step, ypos).Some?
    ensures |GridScanPath(width, bottom, top, step, step, ypos).value| == 51 * 101
  {
    var zs := ZRows(bottom, top, step);
    DefaultRowCount(bottom, top, step);
    DefaultRowLength(width, step);
    SweepLength(width, step, ypos, zs, |zs|);
    StepTimes(|zs|, |AscendingXs(width, step)|, 101);
  }

  /** Every point of that scan lies in `-500 <= x <= 500`, `200 <= z <= 700`, at `y == 400`. */
  lemma DefaultScanBounds(width: int, bottom: int, top: int, step: int, ypos: int)
    requires width == 1000 && bottom == 200 && top == 700 && step == 10 && ypos == 400
    ensures GridScanPath(width, bottom, top, step, step, ypos).Some?
    ensures forall p :: p in GridScanPath(width, bottom, top, step, step, ypos).value ==>
      -500 <= p.x <= 500 && 200 <= p.z <= 700 && p.y == 400
  {
    var zs := ZRows(bottom, top, step);
    SweepPoints(width, step, ypos, zs, |zs|);
    assert zs[..|zs|] == zs;
    forall p | p in GridScanPath(width, bottom, top, step, step, ypos).value
      ensures -500 <= p.x <= 500 && 200 <= p.z <= 700
    {
      DefaultRowHeights(bottom, top, step, p.z);
      if p.x in AscendingXs(width, step) {
        DefaultAscendingXs(width, step, p.x);
      } else {
        DefaultDescendingXs(width, step, p.x);
      }
    }
  }

  /** The rows of that scan lie at `200 <= z <= 700`. */
  lemma DefaultRowHeights(bottom: int, top: int, step: int, z: int)
    requires bottom == 200 && top == 700 && step == 10
    requires z in ZRows(bottom, top, step)
    ensures 200 <= z <= 700
  {
    DefaultRowCount(bottom, top, step);
    var k := RangeIndex(top, bottom - step, -step, z);
    StepTimes(k, -step, -10);
  }

  /** A left-to-right row of that scan stays in `-500 <= x <= 500`. */
  lemma DefaultAscendingXs(width: int, step: int, x: int)
    requires width == 1000 && step == 10
    requires x in AscendingXs(width, step)
    ensures -500 <= x <= 500
  {
    DefaultRowLength(width, step);
    var k := RangeIndex(Half(-width), Half(width) + step, step, x);
    StepTimes(k, step, 10);
  }

  /** So does a right-to-left row. */
  lemma DefaultDescendingXs(width: int, step: int, x: int)
    requires width == 1000 && step == 10
    requires x in DescendingXs(width, step)
    ensures -500 <= x <= 500
  {
    DefaultRowLength(width, step);
    RowsMirror(width, step);
    var k := RangeIndex(Half(width), Half(-width) - step, -step, x);
    StepTimes(k, -step, -10);
  }

  lemma StepTimes(k: int, step: int, c: int)
    requires step == c
    ensures k * step == k * c
  {
  }

  /**
   * For `0 <= x + 500 <= 9999` and `0 <= z <= 9999` the capture name is nine
   * characters: the padded `x + 500`, a dash, the padded `z`.
   */
  lemma CaptureNameLayout(p: Point)
    requires 0 <= p.x + 500 <= 9999 && 0 <= p.z <= 9999
    ensures |CaptureName(p)| == 9 && CaptureName(p)[4] == '-'
    ensures CaptureName(p)[..4] == PadNat(p.x + 500, 4) && CaptureName(p)[5..] == PadNat(p.z, 4)
    ensures AllDigits(CaptureName(p)[..4]) && AllDigits(CaptureName(p)[5..])
    ensures ParseInt(CaptureName(p)[..4]) == Some(p.x + 500) && ParseInt(CaptureName(p)[5..]) == Some(p.z)
  {
    assert Pow10(4) == 10000;
    PadNatFacts(p.x + 500, 4);
    PadNatFacts(p.z, 4);
    var a, b := PadNat(p.x + 500, 4), PadNat(p.z, 4);
    assert CaptureName(p) == a + "-" + b;
    assert CaptureName(p)[..4] == a;
    assert CaptureName(p)[5..] == b;
    FormatIntParses(p.x + 500, 4);
    FormatIntParses(p.z, 4);
  }
}

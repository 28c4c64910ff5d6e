/** Corner handedness and the straight-segment rasterizer of the route builder
    (`turn_direction` and `QRouteMod.straight_segment`). */
module RouteSegment {
  import opened Base
  import opened Geometry
  import opened RouteNumerics

  /** "L" when the path turns left at `p1`, "R" otherwise (collinear included). */
  function TurnDirection(p0: Point, p1: Point, p2: Point): (d: char)
    ensures d == 'L' || d == 'R'
  {
    if Cross(Sub(p1, p0), Sub(p2, p1)) > 0.0 then 'L' else 'R'
  }

  /** The path turns left exactly when the cross product of the incoming edge and the
      outgoing edge is positive; a zero cross product (collinear points, or a repeated
      point) reads as a right turn. */
  lemma TurnDirectionLeft(p0: Point, p1: Point, p2: Point)
    ensures TurnDirection(p0, p1, p2) == 'L' <==> Cross(Sub(p1, p0), Sub(p2, p1)) > 0.0
    ensures TurnDirection(p0, p1, p2) == 'R' <==> Cross(Sub(p1, p0), Sub(p2, p1)) <= 0.0
    ensures p0 == p1 || p1 == p2 ==> TurnDirection(p0, p1, p2) == 'R'
  {
  }

  /** Walking the same three points backwards turns the other way, unless the points
      are collinear, which reads as a right turn both ways. */
  lemma TurnDirectionReversed(p0: Point, p1: Point, p2: Point)
    ensures Cross(Sub(p1, p0), Sub(p2, p1)) != 0.0 ==>
      (TurnDirection(p0, p1, p2) == 'L' <==> TurnDirection(p2, p1, p0) == 'R')
    ensures Cross(Sub(p1, p0), Sub(p2, p1)) == 0.0 ==>
      TurnDirection(p0, p1, p2) == 'R' && TurnDirection(p2, p1, p0) == 'R'
  {
    var a, b := p1.x - p0.x, p1.y - p0.y;
    var c, d := p2.x - p1.x, p2.y - p1.y;
    assert Cross(Sub(p1, p0), Sub(p2, p1)) == a * d - b * c;
    assert Cross(Sub(p1, p2), Sub(p0, p1)) == (-c) * (-b) - (-d) * (-a);
    assert (-c) * (-b) - (-d) * (-a) == -(a * d - b * c);
  }

  /** `int(np.ceil(len / step)) + 1` samples: at least two, never further apart than `step`. */
  function SampleCount(len: real, step: real): (n: int)
    requires len > 0.0 && step > 0.0
    ensures n >= 2
  {
    Ceil(len / step) + 1
  }

  /** The samples are never further apart than `step`. */
  lemma SampleSpacing(len: real, step: real)
    requires len > 0.0 && step > 0.0
    ensures len / (SampleCount(len, step) - 1) as real <= step
  {
    var c := Ceil(len / step);
    assert c as real * step >= len by {
      assert c as real >= len / step;
      assert (len / step) * step == len;
    }
  }

  /** Centreline point of sample `i` of `n` on the segment from `p0` to `p1`. */
  function Centre(p0: Point, p1: Point, n: int, i: int): Point
    requires n >= 2
  {
    Point(p0.x + (p1.x - p0.x) * i as real / (n - 1) as real,
          p0.y + (p1.y - p0.y) * i as real / (n - 1) as real)
  }

  /** The left unit normal `[y0 - y1, x1 - x0] / len`. */
  function Normal(p0: Point, p1: Point, len: real): Point
    requires len != 0.0
  {
    Point((p0.y - p1.y) / len, (p1.x - p0.x) / len)
  }

  /** The arclength at which the width profile is evaluated for sample `i`. */
  function WidthArg(beg: real, len: real, n: int, i: int): real
    requires n >= 2
  {
    beg + i as real * (len / (n - 1) as real)
  }

  /** Half-width offset of sample `i` along the left normal. */
  function Offset(p0: Point, p1: Point, len: real, beg: real, n: int, w: real -> real, i: int): Point
    requires n >= 2 && len != 0.0
  {
    Scale(w(WidthArg(beg, len, n, i)) / 2.0, Normal(p0, p1, len))
  }

  function LeftPoint(p0: Point, p1: Point, len: real, beg: real, n: int, w: real -> real, i: int): Point
    requires n >= 2 && len != 0.0
  {
    Add(Centre(p0, p1, n, i), Offset(p0, p1, len, beg, n, w, i))
  }

  function RightPoint(p0: Point, p1: Point, len: real, beg: real, n: int, w: real -> real, i: int): Point
    requires n >= 2 && len != 0.0
  {
    Sub(Centre(p0, p1, n, i), Offset(p0, p1, len, beg, n, w, i))
  }

  /** The first `m` left boundary points, in sample order. */
  function LeftSide(p0: Point, p1: Point, len: real, beg: real, n: int, w: real -> real, m: nat): (r: seq<Point>)
    requires n >= 2 && len != 0.0
    ensures |r| == m
    ensures forall i :: 0 <= i < m ==> r[i] == LeftPoint(p0, p1, len, beg, n, w, i)
  {
    if m == 0 then [] else LeftSide(p0, p1, len, beg, n, w, m - 1) + [LeftPoint(p0, p1, len, beg, n, w, m - 1)]
  }

  /** The first `m` right boundary points, in sample order. */
  function RightSide(p0: Point, p1: Point, len: real, beg: real, n: int, w: real -> real, m: nat): (r: seq<Point>)
    requires n >= 2 && len != 0.0
    ensures |r| == m
    ensures forall i :: 0 <= i < m ==> r[i] == RightPoint(p0, p1, len, beg, n, w, i)
  {
    if m == 0 then [] else RightSide(p0, p1, len, beg, n, w, m - 1) + [RightPoint(p0, p1, len, beg, n, w, m - 1)]
  }

  /** The boundary `straight_segment` hands to `draw.Polygon`, or `None` for a segment of
      length at most the tolerance. */
  function SegmentPolygon(p0: Point, p1: Point, beg: real, w: real -> real, step: real,
                          num: Numerics): Option<Shape>
    requires step > 0.0
  {
    var len := Dist(num, p0, p1);
    if len > SegmentTolerance then
      var n := SampleCount(len, step);
      Some(Polygon(LeftSide(p0, p1, len, beg, n, w, n) + Reversed(RightSide(p0, p1, len, beg, n, w, n))))
    else
      None
  }

  /** `QRouteMod.straight_segment`: walks the samples, collecting the left and right
      offsets, reverses the right side and joins the two. */
  method StraightSegment(p0: Point, p1: Point, beg: real, w: real -> real, step: real,
                         num: Numerics) returns (poly: Option<Shape>)
    requires step > 0.0
    ensures poly == SegmentPolygon(p0, p1, beg, w, step, num)
  {
    var len := Dist(num, p0, p1);
    if len <= SegmentTolerance {
      return None;
    }
    var n := SampleCount(len, step);
    var actualStep := len / (n - 1) as real;
    var orth := Point((p0.y - p1.y) / len, (p1.x - p0.x) / len);
    var left: seq<Point> := [];
    var right: seq<Point> := [];
    var i := 0;
    while i < n
      invariant 0 <= i <= n
      invariant |left| == i && |right| == i
      invariant forall k :: 0 <= k < i ==> left[k] == LeftPoint(p0, p1, len, beg, n, w, k)
      invariant forall k :: 0 <= k < i ==> right[k] == RightPoint(p0, p1, len, beg, n, w, k)
    {
      var c := Centre(p0, p1, n, i);
      var width := w(beg + i as real * actualStep);
      assert beg + i as real * actualStep == WidthArg(beg, len, n, i);
      assert Scale(width / 2.0, orth) == Offset(p0, p1, len, beg, n, w, i);
      left := left + [Add(c, Scale(width / 2.0, orth))];
      right := right + [Sub(c, Scale(width / 2.0, orth))];
      i := i + 1;
    }
    assert left == LeftSide(p0, p1, len, beg, n, w, n);
    assert right == RightSide(p0, p1, len, beg, n, w, n);
    right := Reversed(right);
    poly := Some(Polygon(left + right));
  }

  /** A segment is skipped exactly when it is no longer than the tolerance. */
  lemma SegmentSkipped(p0: Point, p1: Point, beg: real, w: real -> real, step: real, num: Numerics)
    requires step > 0.0
    ensures SegmentPolygon(p0, p1, beg, w, step, num).None? <==> Dist(num, p0, p1) <= SegmentTolerance
  {
  }

  /** A segment longer than the tolerance yields a polygon of `2n` vertices: the left
      offsets in sample order, then the right offsets in reverse. */
  lemma SegmentBoundaryLayout(p0: Point, p1: Point, beg: real, w: real -> real, step: real,
                              num: Numerics)
    requires step > 0.0 && Dist(num, p0, p1) > SegmentTolerance
    ensures
      var len := Dist(num, p0, p1);
      var n := SampleCount(len, step);
      var poly := SegmentPolygon(p0, p1, beg, w, step, num);
      && poly.Some? && poly.value.Polygon?
      && |poly.value.vertices| == 2 * n
      && (forall i :: 0 <= i < n ==> poly.value.vertices[i] == LeftPoint(p0, p1, len, beg, n, w, i))
      && (forall i :: 0 <= i < n ==> poly.value.vertices[2 * n - 1 - i] == RightPoint(p0, p1, len, beg, n, w, i))
  {
    var len := Dist(num, p0, p1);
    var n := SampleCount(len, step);
    var left, right := LeftSide(p0, p1, len, beg, n, w, n), RightSide(p0, p1, len, beg, n, w, n);
    JoinLayout(left, right);
  }

  /** At every sample the left and right boundary points sit symmetrically about the
      centreline point, half the profile width away along the normal. */
  lemma SidesSymmetric(p0: Point, p1: Point, len: real, beg: real, n: int, w: real -> real, i: int)
    requires n >= 2 && len != 0.0
    ensures Add(LeftPoint(p0, p1, len, beg, n, w, i), RightPoint(p0, p1, len, beg, n, w, i))
            == Scale(2.0, Centre(p0, p1, n, i))
    ensures Sub(LeftPoint(p0, p1, len, beg, n, w, i), Centre(p0, p1, n, i))
            == Scale(w(WidthArg(beg, len, n, i)) / 2.0, Normal(p0, p1, len))
  {
  }

  /** The centreline samples start at `p0` and end at `p1`. */
  lemma CentreEnds(p0: Point, p1: Point, n: int)
    requires n >= 2
    ensures Centre(p0, p1, n, 0) == p0
    ensures Centre(p0, p1, n, n - 1) == p1
  {
    var d := (n - 1) as real;
    assert (p1.x - p0.x) * d / d == p1.x - p0.x;
    assert (p1.y - p0.y) * d / d == p1.y - p0.y;
  }

  /** The width profile is queried at strictly increasing arclengths, from `beg` to
      `beg + len`, consecutive queries at most `step` apart. */
  lemma WidthArgsIncrease(beg: real, len: real, step: real, i: int, j: int)
    requires len > 0.0 && step > 0.0
    requires 0 <= i < j < SampleCount(len, step)
    ensures WidthArg(beg, len, SampleCount(len, step), i) < WidthArg(beg, len, SampleCount(len, step), j)
    ensures WidthArg(beg, len, SampleCount(len, step), 0) == beg
    ensures WidthArg(beg, len, SampleCount(len, step), SampleCount(len, step) - 1) == beg + len
    ensures WidthArg(beg, len, SampleCount(len, step), i + 1) - WidthArg(beg, len, SampleCount(len, step), i) <= step
  {
    var n := SampleCount(len, step);
    var d := len / (n - 1) as real;
    SampleSpacing(len, step);
    assert d > 0.0;
    assert i as real * d < j as real * d;
    assert (n - 1) as real * d == len;
    assert (i + 1) as real * d - i as real * d == d;
  }
}

/** The fillet arc synthesizer of the route builder (`QRouteMod._calc_fillet`): the
    feasibility test for a corner and the sampled arc with its running arclength. */
module RouteFillet {
  import opened Base
  import opened Geometry
  import opened RouteNumerics

  /** The corner angle `_calc_fillet` computes: arccos of the dot product of the unit
      vectors from the corner towards `start` and towards `end`. */
  function CornerAngle(start: Point, corner: Point, end: Point, num: Numerics): real {
    num.angle(Sub(start, corner), Sub(end, corner))
  }

  /** The refusals of qroutemod.py:257-280: a repeated vertex, a straight or reversing
      corner, or a fillet whose tangent points overrun the shorter adjacent side. */
  predicate FilletFeasible(start: Point, corner: Point, end: Point, radius: real, num: Numerics)
    requires Sound(num)
  {
    && start != corner
    && end != corner
    && var a := CornerAngle(start, corner, end, num);
    && a != 0.0
    && a != Pi
    && !(radius / num.tan(a / 2.0) > Min(Dist(num, corner, start), Dist(num, corner, end)))
  }

  /** A corner is refused exactly in the three cases the source names; a fillet whose
      tangent distance equals the shorter side is accepted. */
  lemma FilletFeasibleCases(start: Point, corner: Point, end: Point, radius: real, num: Numerics)
    requires Sound(num)
    ensures start == corner || end == corner ==> !FilletFeasible(start, corner, end, radius, num)
    ensures start != corner && end != corner ==>
      var a := CornerAngle(start, corner, end, num);
      && (a == 0.0 || a == Pi ==> !FilletFeasible(start, corner, end, radius, num))
      && (0.0 < a < Pi ==>
            (FilletFeasible(start, corner, end, radius, num) <==>
             radius / num.tan(a / 2.0) <= Min(Dist(num, corner, start), Dist(num, corner, end))))
  {
  }

  /** Sample `k` of `np.linspace(a, b, n)` for `n >= 2`: `n` evenly spaced values from
      `a` to `b`, both included. */
  function Linspace(a: real, b: real, n: int, k: int): real
    requires n >= 2
  {
    a + k as real * ((b - a) / (n - 1) as real)
  }

  /** The sampled arc of one fillet: `_calc_fillet` hands `poly` to `draw.Polygon` and
      returns it with the arc's centreline points and the arclength after the arc. */
  datatype Arc = Arc(poly: Shape, path: seq<Point>, endCoord: real)

  /** A sample count that yields a polygon: with fewer than two samples the arc boundary
      has two vertices, and `draw.Polygon` refuses it. */
  type ArcSamples = n: int | n >= 2 witness 2

  /** What `_calc_fillet` does with a corner: returns `False` (qroutemod.py:260, 276,
      280), returns the sampled arc, or raises a ValueError in `draw.Polygon`
      (qroutemod.py:337) because the arc was drawn with a single sample, whose left and
      right points make a two-point ring. */
  datatype FilletOutcome = Refused | Filleted(arc: Arc) | TwoPointRing

  /** What the arc sampler works from: the circle and sweep, the radius, the sample
      count, the arclength at the first tangent point, and the width profile. */
  datatype ArcSampler = ArcSampler(frame: ArcFrame, radius: real, points: ArcSamples, entry: real,
                                   w: real -> real, num: Numerics)
  {
    /** Angle advance per sample, as used for the arclength. */
    function ThetaStep(): real {
      Abs(frame.thetaEnd - frame.thetaStart) / (points - 1) as real
    }

    /** Angle of sample `k`, the `k`-th value of `np.linspace(theta_start, theta_end, points)`. */
    function Theta(k: int): real {
      Linspace(frame.thetaStart, frame.thetaEnd, points, k)
    }

    /** Arclength at sample `k`: each later sample adds `radius * ThetaStep()`. */
    function Coord(k: int): real {
      entry + k as real * (radius * ThetaStep())
    }

    /** `1 - 2 * (theta_end > theta_start)`. */
    function Direction(): real {
      if frame.thetaEnd > frame.thetaStart then -1.0 else 1.0
    }

    /** Centreline point of sample `k`. */
    function Centre(k: int): Point {
      Add(frame.centre, Scale(radius, num.unit(Theta(k))))
    }

    /** Half-width offset of sample `k` along the signed radial direction. */
    function Offset(k: int): Point {
      Scale(w(Coord(k)) / 2.0, Scale(Direction(), num.unit(Theta(k))))
    }

    function Left(k: int): Point { Add(Centre(k), Offset(k)) }

    function Right(k: int): Point { Sub(Centre(k), Offset(k)) }

    /** The first `m` centreline samples. */
    function CentreLine(m: nat): (r: seq<Point>)
      ensures |r| == m
      ensures forall k :: 0 <= k < m ==> r[k] == Centre(k)
    {
      if m == 0 then [] else CentreLine(m - 1) + [Centre(m - 1)]
    }

    /** The first `m` left boundary samples. */
    function LeftSide(m: nat): (r: seq<Point>)
      ensures |r| == m
      ensures forall k :: 0 <= k < m ==> r[k] == Left(k)
    {
      if m == 0 then [] else LeftSide(m - 1) + [Left(m - 1)]
    }

    /** The first `m` right boundary samples. */
    function RightSide(m: nat): (r: seq<Point>)
      ensures |r| == m
      ensures forall k :: 0 <= k < m ==> r[k] == Right(k)
    {
      if m == 0 then [] else RightSide(m - 1) + [Right(m - 1)]
    }

    /** The arc as `_calc_fillet` returns it once the corner is accepted. */
    function Build(): Arc {
      Arc(Polygon(LeftSide(points) + Reversed(RightSide(points))), CentreLine(points), Coord(points - 1))
    }
  }

  /** The sampler `_calc_fillet` sets up for an accepted corner: the arclength enters at
      `startCoord` plus the straight distance from `lastPoint` to the first tangent point. */
  function Sampler(start: Point, corner: Point, end: Point, radius: real, w: real -> real,
                   lastPoint: Point, startCoord: real, points: ArcSamples, num: Numerics): ArcSampler
  {
    var f := num.frame(start, corner, end, radius, CornerAngle(start, corner, end, num));
    var first := Add(f.centre, Scale(radius, num.unit(f.thetaStart)));
    ArcSampler(f, radius, points, startCoord + Dist(num, lastPoint, first), w, num)
  }

  /** `_calc_fillet`'s outcome: a refused corner returns `False`; an accepted one is
      sampled, and raises when fewer than two samples were asked for. */
  function FilletArc(start: Point, corner: Point, end: Point, radius: real, w: real -> real,
                     lastPoint: Point, startCoord: real, points: int, num: Numerics): (r: FilletOutcome)
    requires Sound(num)
    ensures r.Refused? <==> !FilletFeasible(start, corner, end, radius, num)
    ensures r.TwoPointRing? <==> FilletFeasible(start, corner, end, radius, num) && points < 2
    ensures r.Filleted? ==> points >= 2 && |r.arc.path| == points
  {
    if !FilletFeasible(start, corner, end, radius, num) then Refused
    else if points < 2 then TwoPointRing
    else Filleted(Sampler(start, corner, end, radius, w, lastPoint, startCoord, points, num).Build())
  }

  /** `QRouteMod._calc_fillet`: refuses the corner in the three cases of
      qroutemod.py:257-280, otherwise places the circle and samples the arc. */
  method CalcFillet(start: Point, corner: Point, end: Point, radius: real, w: real -> real,
                    lastPoint: Point, startCoord: real, points: int, num: Numerics)
    returns (outcome: FilletOutcome)
    requires Sound(num)
    ensures outcome == FilletArc(start, corner, end, radius, w, lastPoint, startCoord, points, num)
  {
    if start == corner || end == corner {
      return Refused;
    }
    var scVec := Sub(start, corner);
    var ecVec := Sub(end, corner);
    var scNorm := num.norm(scVec);
    var ecNorm := num.norm(ecVec);
    var endAngle := num.angle(scVec, ecVec);
    if endAngle == 0.0 || endAngle == Pi {
      return Refused;
    }
    if radius / num.tan(endAngle / 2.0) > Min(scNorm, ecNorm) {
      return Refused;
    }
    var f := num.frame(start, corner, end, radius, endAngle);
    if points < 2 {
      // `np.linspace(...)[1:]` is empty: one left and one right point reach
      // `draw.Polygon`, which raises on a ring of two points
      return TwoPointRing;
    }
    assert FilletFeasible(start, corner, end, radius, num);
    var sampled := SampleFillet(f, radius, w, lastPoint, startCoord, points, num);
    assert sampled == Sampler(start, corner, end, radius, w, lastPoint, startCoord, points, num).Build();
    outcome := Filleted(sampled);
  }

  /** The sampling half of `_calc_fillet` (qroutemod.py:311-338), once the circle and the
      sweep angles are known: walks the sweep angles, advancing the arclength by
      `radius * theta_step` per sample and collecting both offsets. */
  method SampleFillet(f: ArcFrame, radius: real, w: real -> real, lastPoint: Point,
                      startCoord: real, points: ArcSamples, num: Numerics) returns (arc: Arc)
    ensures
      var first := Add(f.centre, Scale(radius, num.unit(f.thetaStart)));
      arc == ArcSampler(f, radius, points, startCoord + Dist(num, lastPoint, first), w, num).Build()
  {
    ghost var s := ArcSampler(f, radius, points, startCoord + Dist(num, lastPoint,
                     Add(f.centre, Scale(radius, num.unit(f.thetaStart)))), w, num);
    var pathPt := Add(f.centre, Scale(radius, num.unit(f.thetaStart)));
    var path := [pathPt];
    var curCoord := startCoord + num.norm(Sub(pathPt, lastPoint));
    var thetaStep := Abs(f.thetaEnd - f.thetaStart) / (points - 1) as real;
    var directionFactor := if f.thetaEnd > f.thetaStart then -1.0 else 1.0;
    var vOrthoLeft := Scale(directionFactor, num.unit(f.thetaStart));
    var left := [Add(pathPt, Scale(w(curCoord) / 2.0, vOrthoLeft))];
    var right := [Sub(pathPt, Scale(w(curCoord) / 2.0, vOrthoLeft))];
    SampleFirst(s, pathPt, curCoord, directionFactor);
    assert s.radius == radius && s.frame == f && s.points == points && s.num == num && s.w == w;
    assert thetaStep == s.ThetaStep();
    var coordStep := radius * thetaStep;
    assert coordStep == s.radius * s.ThetaStep();
    var k := 1;
    while k < points
      invariant 1 <= k <= points
      invariant SampledUpTo(s, path, left, right, curCoord, k)
    {
      var theta := Linspace(f.thetaStart, f.thetaEnd, points, k);
      pathPt := Add(f.centre, Scale(radius, num.unit(theta)));
      vOrthoLeft := Scale(directionFactor, num.unit(theta));
      var prevCoord := curCoord;
      curCoord := curCoord + coordStep;
      var l := Add(pathPt, Scale(w(curCoord) / 2.0, vOrthoLeft));
      var r := Sub(pathPt, Scale(w(curCoord) / 2.0, vOrthoLeft));
      DrawNext(s, path, left, right, prevCoord, k, theta, directionFactor, pathPt, curCoord, l, r);
      left := left + [l];
      right := right + [r];
      path := path + [pathPt];
      k := k + 1;
    }
    BuildFrom(s, left, right, path, curCoord);
    right := Reversed(right);
    arc := Arc(Polygon(left + right), path, curCoord);
  }

  /** The sample `_calc_fillet` draws before its loop is sample 0 of the sampler. */
  lemma SampleFirst(s: ArcSampler, pathPt: Point, coord: real, dirFactor: real)
    requires pathPt == Add(s.frame.centre, Scale(s.radius, s.num.unit(s.frame.thetaStart)))
    requires coord == s.entry
    requires dirFactor == s.Direction()
    ensures
      var offset := Scale(s.w(coord) / 2.0, Scale(dirFactor, s.num.unit(s.frame.thetaStart)));
      SampledUpTo(s, [pathPt], [Add(pathPt, offset)], [Sub(pathPt, offset)], coord, 1)
  {
    assert s.Theta(0) == s.frame.thetaStart;
    assert s.Coord(0) == s.entry;
  }

  /** The lists `_calc_fillet` has built after drawing the first `k` samples of `s`. */
  ghost predicate SampledUpTo(s: ArcSampler, path: seq<Point>, left: seq<Point>, right: seq<Point>,
                        coord: real, k: int)
  {
    && |path| == k && |left| == k && |right| == k
    && coord == s.Coord(k - 1)
    && (forall j :: 0 <= j < k ==> path[j] == s.Centre(j))
    && (forall j :: 0 <= j < k ==> left[j] == s.Left(j))
    && (forall j :: 0 <= j < k ==> right[j] == s.Right(j))
  }

  /** One pass of the sampling loop draws sample `k`. */
  lemma DrawNext(s: ArcSampler, path: seq<Point>, left: seq<Point>, right: seq<Point>,
                 coord: real, k: int, theta: real, dirFactor: real,
                 pathPt: Point, coord': real, l: Point, r: Point)
    requires SampledUpTo(s, path, left, right, coord, k)
    requires theta == Linspace(s.frame.thetaStart, s.frame.thetaEnd, s.points, k)
    requires dirFactor == s.Direction()
    requires pathPt == Add(s.frame.centre, Scale(s.radius, s.num.unit(theta)))
    requires coord' == coord + s.radius * s.ThetaStep()
    requires l == Add(pathPt, Scale(s.w(coord') / 2.0, Scale(dirFactor, s.num.unit(theta))))
    requires r == Sub(pathPt, Scale(s.w(coord') / 2.0, Scale(dirFactor, s.num.unit(theta))))
    ensures SampledUpTo(s, path + [pathPt], left + [l], right + [r], coord', k + 1)
  {
    CoordStep(s, k);
    SampleAt(s, k, theta, coord', dirFactor);
  }

  /** Lists holding exactly the samples of `s` assemble into `s.Build()`. */
  lemma BuildFrom(s: ArcSampler, left: seq<Point>, right: seq<Point>, path: seq<Point>, coord: real)
    requires SampledUpTo(s, path, left, right, coord, s.points)
    ensures Arc(Polygon(left + Reversed(right)), path, coord) == s.Build()
  {
    var n := s.points;
    assert left == s.LeftSide(n);
    assert right == s.RightSide(n);
    assert path == s.CentreLine(n);
  }

  /** One more sample advances the arclength by `radius * ThetaStep()`. */
  lemma CoordStep(s: ArcSampler, k: int)
    ensures s.Coord(k) == s.Coord(k - 1) + s.radius * s.ThetaStep()
  {
    var inc := s.radius * s.ThetaStep();
    assert (k - 1) as real * inc + inc == k as real * inc;
  }

  /** The sample the loop of `_calc_fillet` draws at angle `theta` and arclength `coord`
      is sample `k` of the sampler. */
  lemma SampleAt(s: ArcSampler, k: int, theta: real, coord: real, dirFactor: real)
    requires theta == Linspace(s.frame.thetaStart, s.frame.thetaEnd, s.points, k)
    requires coord == s.Coord(k)
    requires dirFactor == s.Direction()
    ensures Add(s.frame.centre, Scale(s.radius, s.num.unit(theta))) == s.Centre(k)
    ensures Scale(s.w(coord) / 2.0, Scale(dirFactor, s.num.unit(theta))) == s.Offset(k)
  {
    assert s.Theta(k) == theta;
  }

  /** The arc keeps arclength in step with its centreline: it enters at the distance
      from the last path point to the first tangent point, and over the sweep adds
      exactly `radius * |theta_end - theta_start|`, the last sample lying at `theta_end`. */
  lemma ArcArclength(s: ArcSampler)
    ensures |s.Build().path| == s.points
    ensures s.Build().path[0] == Add(s.frame.centre, Scale(s.radius, s.num.unit(s.frame.thetaStart)))
    ensures s.Build().endCoord == s.entry + s.radius * Abs(s.frame.thetaEnd - s.frame.thetaStart)
    ensures s.Build().endCoord == s.Coord(s.points - 1)
    ensures s.Theta(s.points - 1) == s.frame.thetaEnd
  {
    var b := s.Build();
    assert b.endCoord == s.Coord(s.points - 1) && b.path == s.CentreLine(s.points);
    EvenSteps(s.frame.thetaStart, s.frame.thetaEnd, s.radius, s.points - 1);
  }

  /** `n` equal steps of `(b - a) / n` lead from `a` to `b`, and `n` arclength steps of
      `radius * |b - a| / n` add up to `radius * |b - a|`. */
  lemma EvenSteps(a: real, b: real, radius: real, n: int)
    requires n >= 1
    ensures a + n as real * ((b - a) / n as real) == b
    ensures n as real * (radius * (Abs(b - a) / n as real)) == radius * Abs(b - a)
  {
    var d := n as real;
    assert d * (radius * (Abs(b - a) / d)) == radius * (d * (Abs(b - a) / d));
  }

  /** For a non-negative radius the width profile is queried at non-decreasing
      arclengths along the arc, all between the entry arclength and that of the last
      sample, which is the exit arclength (`ArcArclength`). */
  lemma ArcCoordsMonotone(s: ArcSampler, j: int, k: int)
    requires s.radius >= 0.0
    requires 0 <= j <= k < s.points
    ensures s.entry <= s.Coord(j) <= s.Coord(k) <= s.Coord(s.points - 1)
  {
    var inc := s.radius * s.ThetaStep();
    assert inc >= 0.0 by {
      assert s.ThetaStep() >= 0.0;
      MulMonotone(0.0, s.radius, s.ThetaStep());
    }
    StepsMonotone(s.entry, inc, j, k, s.points - 1, s.Coord(j), s.Coord(k), s.Coord(s.points - 1));
  }

  /** Equal non-negative increments: `entry + i * inc` grows with `i`. */
  lemma StepsMonotone(entry: real, inc: real, i: int, j: int, k: int, ci: real, cj: real, ck: real)
    requires 0.0 <= inc && 0 <= i <= j <= k
    requires ci == entry + i as real * inc && cj == entry + j as real * inc && ck == entry + k as real * inc
    ensures entry <= ci <= cj <= ck
  {
    MulMonotone(0.0, i as real, inc);
    MulMonotone(i as real, j as real, inc);
    MulMonotone(j as real, k as real, inc);
  }

  /** At every arc sample the two boundary points are symmetric about the centreline
      point, half the profile width away along the radial direction. */
  lemma ArcSidesSymmetric(s: ArcSampler, k: int)
    ensures Add(s.Left(k), s.Right(k)) == Scale(2.0, s.Centre(k))
    ensures Sub(s.Left(k), s.Centre(k)) == Scale(s.w(s.Coord(k)) / 2.0, Scale(s.Direction(), s.num.unit(s.Theta(k))))
  {
  }

  /** The arc polygon lists the left offsets in sweep order, then the right offsets in
      reverse: `2 * points` vertices. */
  lemma ArcBoundaryLayout(s: ArcSampler)
    ensures s.Build().poly.Polygon?
    ensures |s.Build().poly.vertices| == 2 * s.points
    ensures forall k :: 0 <= k < s.points ==> s.Build().poly.vertices[k] == s.Left(k)
    ensures forall k :: 0 <= k < s.points ==>
      s.Build().poly.vertices[2 * s.points - 1 - k] == s.Right(k)
  {
    JoinLayout(s.LeftSide(s.points), s.RightSide(s.points));
  }
}

/** The corner walk of the route builder (`QRouteMod.fillet_path_and_draw`): it threads
    the running arclength, the growing centreline and the list of drawn pieces through
    the corners of the waypoint polyline. */
module RoutePath {
  import opened Base
  import opened Geometry
  import opened RouteNumerics
  import opened RouteSegment
  import opened RouteFillet

  /** The parameters the walk reads from the component: the fillet radius, the width
      profile, the sampling step, the corners `bad_fillet_idxs` excludes (an input
      here), and the numeric primitives. */
  datatype Route = Route(fillet: real, w: real -> real, step: real, noFillet: set<int>,
                         num: Numerics)
  {
    /** A non-negative fillet radius, a positive step, sound primitives. */
    ghost predicate Ok() {
      fillet >= 0.0 && step > 0.0 && Sound(num)
    }

    /** `int(np.pi/2*fillet/step)` arc samples per fillet. */
    function ArcPoints(): (n: int)
      requires Ok()
      ensures n >= 0
    {
      Trunc(Pi / 2.0 * fillet / step)
    }
  }

  /** What `fillet_path_and_draw` returns: the (union) polygon and the new centreline. */
  datatype Drawing = Drawing(poly: Option<Shape>, path: seq<Point>)

  /** Why drawing a route raises. */
  datatype DrawError =
    /** ValueError: `draw.Polygon` of an arc drawn with one sample (qroutemod.py:337) */
    | ShortArcRing
    /** TypeError: three names unpacked from `_calc_fillet`'s bare `False` (qroutemod.py:217) */
    | UnpackBool

  /** Fewer than two arc samples per fillet: `int(np.pi/2*fillet/step) < 2`. */
  predicate ShortArcs(rt: Route)
    requires rt.Ok()
  {
    rt.ArcPoints() < 2
  }

  /** Corner `j` (the vertex `pts[j + 1]`) reaches `_calc_fillet`, which accepts it. */
  predicate Filletable(pts: seq<Point>, j: int, rt: Route)
    requires rt.Ok() && 0 <= j < |pts| - 2
  {
    j + 1 !in rt.noFillet && FilletFeasible(pts[j], pts[j + 1], pts[j + 2], rt.fillet, rt.num)
  }

  /** The loop state: running arclength `coord`, centreline `newpath`, and `polys`. */
  datatype Walk = Walk(coord: real, path: seq<Point>, polys: seq<Option<Shape>>)

  function Last(s: seq<Point>): Point
    requires |s| >= 1
  {
    s[|s| - 1]
  }

  /** Length of a polyline: the sum of the `norm` of its segments. */
  function PathLength(s: seq<Point>, num: Numerics): real
    decreases |s|
  {
    if |s| <= 1 then 0.0 else PathLength(s[..|s| - 1], num) + Dist(num, s[|s| - 2], s[|s| - 1])
  }

  /** With fillet 0 every segment is drawn straight, starting at the arclength of the
      polyline up to its first point. */
  function ZeroFilletPolys(pts: seq<Point>, rt: Route): (polys: seq<Option<Shape>>)
    requires rt.Ok()
    decreases |pts|
    ensures |polys| == if |pts| >= 1 then |pts| - 1 else 0
  {
    if |pts| <= 1 then []
    else
      var init := pts[..|pts| - 1];
      ZeroFilletPolys(init, rt)
        + [SegmentPolygon(pts[|pts| - 2], pts[|pts| - 1], PathLength(init, rt.num), rt.w, rt.step, rt.num)]
  }

  /** A corner left sharp: a straight piece to the corner, which joins the centreline. */
  function SharpCorner(wk: Walk, corner: Point, rt: Route): Walk
    requires rt.Ok() && |wk.path| >= 1
  {
    var last := Last(wk.path);
    Walk(wk.coord + Dist(rt.num, last, corner), wk.path + [corner],
         wk.polys + [SegmentPolygon(last, corner, wk.coord, rt.w, rt.step, rt.num)])
  }

  /** A filleted corner: a straight piece to the first tangent point (kept only when it
      is drawn), then the arc; the arc's samples join the centreline. */
  function FilletCorner(wk: Walk, arc: Arc, rt: Route): Walk
    requires rt.Ok() && |wk.path| >= 1 && |arc.path| >= 1
  {
    var poly := SegmentPolygon(Last(wk.path), arc.path[0], wk.coord, rt.w, rt.step, rt.num);
    Walk(arc.endCoord, wk.path + arc.path,
         wk.polys + (if poly.Some? then [poly, Some(arc.poly)] else [Some(arc.poly)]))
  }

  /** Corner `i` (the vertex `pts[i + 1]`): sharp when excluded or when `_calc_fillet`
      refuses it, filleted otherwise; an accepted corner raises when the arc has fewer
      than two samples. */
  function CornerStep(pts: seq<Point>, i: int, wk: Walk, rt: Route): (r: Result<Walk, DrawError>)
    requires rt.Ok() && 0 <= i < |pts| - 2 && |wk.path| >= 1
    ensures r.Failure? <==> Filletable(pts, i, rt) && ShortArcs(rt)
    ensures r.Failure? ==> r.error == ShortArcRing
    ensures r.Success? ==> |wk.path| < |r.value.path| && r.value.path[..|wk.path|] == wk.path
    ensures r.Success? ==> |wk.polys| < |r.value.polys| && r.value.polys[..|wk.polys|] == wk.polys
  {
    if i + 1 in rt.noFillet then
      Success(SharpCorner(wk, pts[i + 1], rt))
    else
      match FilletArc(pts[i], pts[i + 1], pts[i + 2], rt.fillet, rt.w, Last(wk.path), wk.coord,
                      rt.ArcPoints(), rt.num)
      case Refused => Success(SharpCorner(wk, pts[i + 1], rt))
      case TwoPointRing => Failure(ShortArcRing)
      case Filleted(arc) => Success(FilletCorner(wk, arc, rt))
  }

  /** The walk over corners `i .. |pts| - 3` from state `wk`; it stops at the first
      corner that raises. */
  function WalkFrom(pts: seq<Point>, i: int, wk: Walk, rt: Route): (r: Result<Walk, DrawError>)
    requires rt.Ok() && 0 <= i <= |pts| - 2 && |wk.path| >= 1
    decreases |pts| - i
    ensures r.Failure? ==> r.error == ShortArcRing
    ensures r.Success? ==> |wk.path| <= |r.value.path| && r.value.path[..|wk.path|] == wk.path
    ensures r.Success? ==> |wk.polys| <= |r.value.polys| && r.value.polys[..|wk.polys|] == wk.polys
  {
    if i == |pts| - 2 then Success(wk)
    else
      match CornerStep(pts, i, wk, rt)
      case Failure(e) => Failure(e)
      case Success(next) =>
        var r := WalkFrom(pts, i + 1, next, rt);
        assert r.Success? ==> r.value.path[..|wk.path|] == r.value.path[..|next.path|][..|wk.path|];
        assert r.Success? ==> r.value.polys[..|wk.polys|] == r.value.polys[..|next.polys|][..|wk.polys|];
        r
  }

  /** The walk from corner `i` raises exactly when the arcs are short and some corner
      from `i` on is accepted by `_calc_fillet`. */
  lemma {:induction false} WalkFails(pts: seq<Point>, i: int, wk: Walk, rt: Route)
    requires rt.Ok() && 0 <= i <= |pts| - 2 && |wk.path| >= 1
    ensures WalkFrom(pts, i, wk, rt).Failure? <==>
            ShortArcs(rt) && exists j :: i <= j < |pts| - 2 && Filletable(pts, j, rt)
    decreases |pts| - i
  {
    if i < |pts| - 2 {
      var step := CornerStep(pts, i, wk, rt);
      if step.Success? {
        WalkFails(pts, i + 1, step.value, rt);
        if ShortArcs(rt) && exists j :: i <= j < |pts| - 2 && Filletable(pts, j, rt) {
          var j :| i <= j < |pts| - 2 && Filletable(pts, j, rt);
          assert j != i;
        }
      }
    }
  }

  /** The walk `fillet_path_and_draw` starts: arclength 0, the centreline at `pts[0]`. */
  function StartWalk(pts: seq<Point>): Walk
    requires |pts| >= 1
  {
    Walk(0.0, [pts[0]], [])
  }

  /** The outcome of `fillet_path_and_draw` for a route of at least two points, with a
      refused corner drawn sharp (qroutemod.py:228-232). */
  function FilletPath(pts: seq<Point>, rt: Route): (r: Result<Drawing, DrawError>)
    requires rt.Ok() && |pts| >= 2
    ensures rt.fillet == 0.0 || |pts| == 2 ==> r.Success? && r.value.path == pts
    ensures r.Failure? ==> r.error == ShortArcRing && rt.fillet != 0.0 && |pts| > 2
  {
    if rt.fillet == 0.0 then
      Success(Drawing(Some(Union(ZeroFilletPolys(pts, rt))), pts))
    else if |pts| <= 2 then
      Success(Drawing(SegmentPolygon(pts[0], pts[1], 0.0, rt.w, rt.step, rt.num), pts))
    else
      match WalkFrom(pts, 0, StartWalk(pts), rt)
      case Failure(e) => Failure(e)
      case Success(wk) => Success(Finish(pts, wk, rt))
  }

  /** `fillet_path_and_draw` raises exactly when the fillet is non-zero, the route has a
      corner, the arcs have fewer than two samples, and some corner is accepted by
      `_calc_fillet`. The profile plays no part in it. */
  lemma FilletPathFails(pts: seq<Point>, rt: Route)
    requires rt.Ok() && |pts| >= 2
    ensures FilletPath(pts, rt).Failure? <==>
            rt.fillet != 0.0 && |pts| > 2 && ShortArcs(rt) &&
            exists j :: 0 <= j < |pts| - 2 && Filletable(pts, j, rt)
  {
    if rt.fillet != 0.0 && |pts| > 2 {
      WalkFails(pts, 0, StartWalk(pts), rt);
    }
  }

  /** Whether the route raises does not depend on its width profile. */
  lemma FailsForAnyProfile(pts: seq<Point>, rt: Route, w: real -> real)
    requires rt.Ok() && |pts| >= 2
    ensures FilletPath(pts, rt.(w := w)).Failure? <==> FilletPath(pts, rt).Failure?
  {
    var rt' := rt.(w := w);
    FilletPathFails(pts, rt);
    FilletPathFails(pts, rt');
    assert ShortArcs(rt') == ShortArcs(rt);
    assert forall j :: 0 <= j < |pts| - 2 ==> Filletable(pts, j, rt') == Filletable(pts, j, rt);
  }

  /** The arcs are short exactly when `pi * fillet < 4 * step`: a fillet below
      `2 * step / pi` is sampled once. */
  lemma ShortArcsWhen(rt: Route)
    requires rt.Ok()
    ensures ShortArcs(rt) <==> Pi * rt.fillet < 4.0 * rt.step
  {
    var a := Pi / 2.0 * rt.fillet;
    var x := a / rt.step;
    assert x * rt.step == a;
    BelowTwoSteps(x, rt.step, a);
  }

  /** For a positive step, `a / step < 2` exactly when `a < 2 * step`. */
  lemma BelowTwoSteps(x: real, step: real, a: real)
    requires step > 0.0 && x * step == a
    ensures x < 2.0 <==> a < 2.0 * step
  {
    if x < 2.0 {
      assert (2.0 - x) * step > 0.0;
    } else {
      assert (x - 2.0) * step >= 0.0;
    }
  }

  /** After the corners: the straight piece to the last waypoint, which closes the
      centreline, and the union of everything drawn. */
  function Finish(pts: seq<Point>, wk: Walk, rt: Route): Drawing
    requires rt.Ok() && |pts| >= 1 && |wk.path| >= 1
  {
    var end := pts[|pts| - 1];
    Drawing(Some(Union(wk.polys + [SegmentPolygon(Last(wk.path), end, wk.coord, rt.w, rt.step, rt.num)])),
            wk.path + [end])
  }

  /** `QRouteMod.fillet_path_and_draw`, with a refused fillet falling back to a sharp
      corner (qroutemod.py:228-232). */
  method FilletPathAndDraw(pts: seq<Point>, rt: Route) returns (drawing: Result<Drawing, DrawError>)
    requires rt.Ok() && |pts| >= 2
    ensures drawing == FilletPath(pts, rt)
  {
    if rt.fillet == 0.0 {
      var polys := DrawStraight(pts, rt);
      return Success(Drawing(Some(Union(polys)), pts));
    }
    if |pts| <= 2 {
      var poly := StraightSegment(pts[0], pts[1], 0.0, rt.w, rt.step, rt.num);
      return Success(Drawing(poly, pts));
    }
    var coord, newpath, polys, raised := WalkCorners(pts, rt);
    if raised.Some? {
      return Failure(raised.value);
    }
    assert FilletPath(pts, rt) == Success(Finish(pts, Walk(coord, newpath, polys), rt));
    var end := pts[|pts| - 1];
    var seg := StraightSegment(newpath[|newpath| - 1], end, coord, rt.w, rt.step, rt.num);
    polys := polys + [seg];
    drawing := Success(Drawing(Some(Union(polys)), newpath + [end]));
  }

  /** The zero-radius branch of `fillet_path_and_draw`: one straight piece per segment,
      the arclength advancing by each segment's length. */
  method DrawStraight(pts: seq<Point>, rt: Route) returns (polys: seq<Option<Shape>>)
    requires rt.Ok() && |pts| >= 1
    ensures polys == ZeroFilletPolys(pts, rt)
  {
    var coord := 0.0;
    polys := [];
    var i := 0;
    while i < |pts| - 1
      invariant 0 <= i <= |pts| - 1
      invariant coord == PathLength(pts[..i + 1], rt.num)
      invariant polys == ZeroFilletPolys(pts[..i + 1], rt)
    {
      var seg := StraightSegment(pts[i], pts[i + 1], coord, rt.w, rt.step, rt.num);
      polys := polys + [seg];
      coord := coord + rt.num.norm(Sub(pts[i + 1], pts[i]));
      ExtendPrefix(pts, i + 1, rt);
      i := i + 1;
    }
    assert pts[..|pts|] == pts;
  }

  /** The corner loop of `fillet_path_and_draw` (qroutemod.py:208-232), which leaves
      with the exception of the first corner that raises. */
  method WalkCorners(pts: seq<Point>, rt: Route)
    returns (coord: real, newpath: seq<Point>, polys: seq<Option<Shape>>, raised: Option<DrawError>)
    requires rt.Ok() && |pts| >= 2
    ensures |newpath| >= 1
    ensures raised.None? ==> WalkFrom(pts, 0, StartWalk(pts), rt) == Success(Walk(coord, newpath, polys))
    ensures raised.Some? ==> WalkFrom(pts, 0, StartWalk(pts), rt) == Failure(raised.value)
  {
    coord := 0.0;
    newpath := [pts[0]];
    polys := [];
    raised := None;
    var i := 0;
    while i < |pts| - 2
      invariant 0 <= i <= |pts| - 2 && |newpath| >= 1
      invariant WalkFrom(pts, i, Walk(coord, newpath, polys), rt) == WalkFrom(pts, 0, StartWalk(pts), rt)
    {
      var c, p, ps, e := DrawCorner(pts, i, coord, newpath, polys, rt);
      if e.Some? {
        raised := e;
        return;
      }
      coord, newpath, polys := c, p, ps;
      i := i + 1;
    }
  }

  /** One pass of the corner loop: corner `i` is the vertex `pts[i + 1]`. */
  method DrawCorner(pts: seq<Point>, i: int, coord: real, newpath: seq<Point>,
                    polys: seq<Option<Shape>>, rt: Route)
    returns (coord': real, newpath': seq<Point>, polys': seq<Option<Shape>>, raised: Option<DrawError>)
    requires rt.Ok() && 0 <= i < |pts| - 2 && |newpath| >= 1
    ensures |newpath'| >= 1
    ensures raised.None? ==> CornerStep(pts, i, Walk(coord, newpath, polys), rt) == Success(Walk(coord', newpath', polys'))
    ensures raised.Some? ==> CornerStep(pts, i, Walk(coord, newpath, polys), rt) == Failure(raised.value)
  {
    raised := None;
    var last := newpath[|newpath| - 1];
    var corner := pts[i + 1];
    if i + 1 in rt.noFillet {
      coord', newpath', polys' := DrawSharp(corner, coord, newpath, polys, rt);
      return;
    }
    var arc := CalcFillet(pts[i], corner, pts[i + 2], rt.fillet, rt.w, last, coord,
                          rt.ArcPoints(), rt.num);
    match arc
    case Refused =>
      coord', newpath', polys' := DrawSharp(corner, coord, newpath, polys, rt);
    case TwoPointRing =>
      coord', newpath', polys' := coord, newpath, polys;
      raised := Some(ShortArcRing);
    case Filleted(a) =>
      var seg := StraightSegment(last, a.path[0], coord, rt.w, rt.step, rt.num);
      coord' := a.endCoord;
      if seg.Some? {
        polys' := polys + [seg, Some(a.poly)];
      } else {
        polys' := polys + [Some(a.poly)];
      }
      newpath' := newpath + a.path;
  }

  /** A corner left sharp (qroutemod.py:211-215 and 228-232). */
  method DrawSharp(corner: Point, coord: real, newpath: seq<Point>, polys: seq<Option<Shape>>,
                   rt: Route)
    returns (coord': real, newpath': seq<Point>, polys': seq<Option<Shape>>)
    requires rt.Ok() && |newpath| >= 1
    ensures |newpath'| >= 1
    ensures Walk(coord', newpath', polys') == SharpCorner(Walk(coord, newpath, polys), corner, rt)
  {
    var last := newpath[|newpath| - 1];
    var seg := StraightSegment(last, corner, coord, rt.w, rt.step, rt.num);
    coord' := coord + rt.num.norm(Sub(corner, last));
    newpath' := newpath + [corner];
    polys' := polys + [seg];
  }

  /** Each corner moves the arclength forward: a sharp corner by the length of the
      straight piece, a fillet to the arc's exit arclength. */
  lemma CornerStepAdvances(pts: seq<Point>, i: int, wk: Walk, rt: Route)
    requires rt.Ok() && 0 <= i < |pts| - 2 && |wk.path| >= 1
    requires CornerStep(pts, i, wk, rt).Success?
    ensures CornerStep(pts, i, wk, rt).value.coord >= wk.coord
  {
    var last := Last(wk.path);
    assert Dist(rt.num, last, pts[i + 1]) >= 0.0;
    if Filletable(pts, i, rt) {
      var s := Sampler(pts[i], pts[i + 1], pts[i + 2], rt.fillet, rt.w, last, wk.coord,
                       rt.ArcPoints(), rt.num);
      var first := Add(s.frame.centre, Scale(rt.fillet, rt.num.unit(s.frame.thetaStart)));
      assert Dist(rt.num, last, first) >= 0.0;
      ArcCoordsMonotone(s, 0, 0);
    }
  }

  /** Over the whole walk the running arclength never decreases. */
  lemma {:induction false} WalkCoordMonotone(pts: seq<Point>, i: int, wk: Walk, rt: Route)
    requires rt.Ok() && 0 <= i <= |pts| - 2 && |wk.path| >= 1
    requires WalkFrom(pts, i, wk, rt).Success?
    ensures WalkFrom(pts, i, wk, rt).value.coord >= wk.coord
    decreases |pts| - i
  {
    if i < |pts| - 2 {
      CornerStepAdvances(pts, i, wk, rt);
      WalkCoordMonotone(pts, i + 1, CornerStep(pts, i, wk, rt).value, rt);
    }
  }

  /** The new centreline starts at the first waypoint and ends at the last; with fillet 0
      or only two points it is the waypoint list itself. */
  lemma FilletPathEnds(pts: seq<Point>, rt: Route)
    requires rt.Ok() && |pts| >= 2 && FilletPath(pts, rt).Success?
    ensures var path := FilletPath(pts, rt).value.path;
      |path| >= 2 && path[0] == pts[0] && path[|path| - 1] == pts[|pts| - 1]
  {
    if rt.fillet != 0.0 && |pts| > 2 {
      var wk := WalkFrom(pts, 0, StartWalk(pts), rt).value;
      assert wk.path[..1] == [pts[0]];
    }
  }

  /** Every corner stays sharp: it is excluded, or `_calc_fillet` refuses it. */
  ghost predicate AllSharp(pts: seq<Point>, rt: Route)
    requires rt.Ok()
  {
    forall j :: 0 <= j < |pts| - 2 ==>
      j + 1 in rt.noFillet || !FilletFeasible(pts[j], pts[j + 1], pts[j + 2], rt.fillet, rt.num)
  }

  /** The walk state once the first `j` waypoints are drawn straight, as the zero-radius
      branch draws them. */
  function StraightWalk(pts: seq<Point>, j: int, rt: Route): Walk
    requires rt.Ok() && 1 <= j <= |pts|
  {
    Walk(PathLength(pts[..j], rt.num), pts[..j], ZeroFilletPolys(pts[..j], rt))
  }

  /** When every corner stays sharp, the walk from corner `i` on draws the remaining
      segments exactly as the zero-radius branch does, at the same arclengths. */
  lemma {:induction false} WalkAllSharp(pts: seq<Point>, i: int, rt: Route)
    requires rt.Ok() && 0 <= i <= |pts| - 2 && AllSharp(pts, rt)
    ensures WalkFrom(pts, i, StraightWalk(pts, i + 1, rt), rt) == Success(StraightWalk(pts, |pts| - 1, rt))
    decreases |pts| - i
  {
    if i < |pts| - 2 {
      SharpStep(pts, i, rt);
      WalkAllSharp(pts, i + 1, rt);
    }
  }

  /** A corner that stays sharp extends the straight drawing of the first `i + 1`
      waypoints by one segment. */
  lemma SharpStep(pts: seq<Point>, i: int, rt: Route)
    requires rt.Ok() && 0 <= i < |pts| - 2
    requires i + 1 in rt.noFillet || !FilletFeasible(pts[i], pts[i + 1], pts[i + 2], rt.fillet, rt.num)
    ensures CornerStep(pts, i, StraightWalk(pts, i + 1, rt), rt) == Success(StraightWalk(pts, i + 2, rt))
  {
    var wk := StraightWalk(pts, i + 1, rt);
    StaysSharp(pts, i, wk, rt);
    StraightExtends(pts, i + 1, rt);
  }

  /** A corner that is excluded or that `_calc_fillet` refuses is drawn sharp. */
  lemma StaysSharp(pts: seq<Point>, i: int, wk: Walk, rt: Route)
    requires rt.Ok() && 0 <= i < |pts| - 2 && |wk.path| >= 1
    requires i + 1 in rt.noFillet || !FilletFeasible(pts[i], pts[i + 1], pts[i + 2], rt.fillet, rt.num)
    ensures CornerStep(pts, i, wk, rt) == Success(SharpCorner(wk, pts[i + 1], rt))
  {
  }

  /** A sharp corner after the first `j` waypoints drawn straight gives the first
      `j + 1` drawn straight. */
  lemma StraightExtends(pts: seq<Point>, j: int, rt: Route)
    requires rt.Ok() && 1 <= j < |pts|
    ensures SharpCorner(StraightWalk(pts, j, rt), pts[j], rt) == StraightWalk(pts, j + 1, rt)
  {
    TakeOneMore(pts, j);
    var wk := StraightWalk(pts, j, rt);
    assert Last(wk.path) == pts[j - 1];
    var seg := SegmentPolygon(pts[j - 1], pts[j], wk.coord, rt.w, rt.step, rt.num);
    assert SharpCorner(wk, pts[j], rt)
        == Walk(wk.coord + Dist(rt.num, pts[j - 1], pts[j]), pts[..j + 1], wk.polys + [seg]);
    ExtendPrefix(pts, j, rt);
  }

  /** One more waypoint adds one segment's length and one straight piece. */
  lemma ExtendPrefix(pts: seq<Point>, j: int, rt: Route)
    requires rt.Ok() && 1 <= j < |pts|
    ensures PathLength(pts[..j + 1], rt.num) == PathLength(pts[..j], rt.num) + Dist(rt.num, pts[j - 1], pts[j])
    ensures ZeroFilletPolys(pts[..j + 1], rt)
            == ZeroFilletPolys(pts[..j], rt)
               + [SegmentPolygon(pts[j - 1], pts[j], PathLength(pts[..j], rt.num), rt.w, rt.step, rt.num)]
  {
    TakeOneMore(pts, j);
  }

  /** A route all of whose corners stay sharp is drawn as with fillet 0: the same
      straight pieces at the same arclengths, and the waypoints as the centreline. */
  lemma AllSharpIsStraight(pts: seq<Point>, rt: Route)
    requires rt.Ok() && |pts| > 2 && AllSharp(pts, rt)
    ensures FilletPath(pts, rt) == Success(Drawing(Some(Union(ZeroFilletPolys(pts, rt))), pts))
  {
    if rt.fillet != 0.0 {
      assert pts[..1] == [pts[0]];
      assert StartWalk(pts) == StraightWalk(pts, 1, rt);
      WalkAllSharp(pts, 0, rt);
      assert FilletPath(pts, rt) == Success(Finish(pts, StraightWalk(pts, |pts| - 1, rt), rt));
      FinishStraight(pts, rt);
    }
  }

  /** Closing the walk that drew all segments but the last straight gives the
      zero-radius drawing. */
  lemma FinishStraight(pts: seq<Point>, rt: Route)
    requires rt.Ok() && |pts| >= 2
    ensures Finish(pts, StraightWalk(pts, |pts| - 1, rt), rt) == Drawing(Some(Union(ZeroFilletPolys(pts, rt))), pts)
  {
    SplitLast(pts);
    assert Last(pts[..|pts| - 1]) == pts[|pts| - 2];
  }

  // ---------------------------------------------------------------------------
  // The corner loop as written: `_calc_fillet` refuses a corner by returning a bare
  // `False`, and `curve_poly, fillet_pts, end_coord = ...` (qroutemod.py:217-219) then
  // raises before the fallback of qroutemod.py:228-232 is reached.

  /** A corner that reaches `_calc_fillet` and is refused there. */
  predicate Refused(pts: seq<Point>, j: int, rt: Route)
    requires rt.Ok() && 0 <= j < |pts| - 2
  {
    j + 1 !in rt.noFillet && !FilletFeasible(pts[j], pts[j + 1], pts[j + 2], rt.fillet, rt.num)
  }

  /** Corner `i` as written: a refused corner raises at the unpacking. */
  function CornerStepAsWritten(pts: seq<Point>, i: int, wk: Walk, rt: Route): (r: Result<Walk, DrawError>)
    requires rt.Ok() && 0 <= i < |pts| - 2 && |wk.path| >= 1
    ensures r.Failure? <==> Refused(pts, i, rt) || (Filletable(pts, i, rt) && ShortArcs(rt))
  {
    if i + 1 in rt.noFillet then
      Success(SharpCorner(wk, pts[i + 1], rt))
    else
      match FilletArc(pts[i], pts[i + 1], pts[i + 2], rt.fillet, rt.w, Last(wk.path), wk.coord,
                      rt.ArcPoints(), rt.num)
      case Refused => Failure(UnpackBool)
      case TwoPointRing => Failure(ShortArcRing)
      case Filleted(arc) => Success(FilletCorner(wk, arc, rt))
  }

  function WalkFromAsWritten(pts: seq<Point>, i: int, wk: Walk, rt: Route): (r: Result<Walk, DrawError>)
    requires rt.Ok() && 0 <= i <= |pts| - 2 && |wk.path| >= 1
    decreases |pts| - i
    ensures r.Success? ==> |r.value.path| >= |wk.path|
  {
    if i == |pts| - 2 then Success(wk)
    else
      match CornerStepAsWritten(pts, i, wk, rt)
      case Failure(e) => Failure(e)
      case Success(next) => WalkFromAsWritten(pts, i + 1, next, rt)
  }

  /** `fillet_path_and_draw` as written. */
  function FilletPathAsWritten(pts: seq<Point>, rt: Route): (r: Result<Drawing, DrawError>)
    requires rt.Ok() && |pts| >= 2
    ensures rt.fillet == 0.0 || |pts| == 2 ==> r.Success? && r.value.path == pts
    ensures r.Failure? ==> rt.fillet != 0.0 && |pts| > 2
  {
    if rt.fillet == 0.0 || |pts| <= 2 then FilletPath(pts, rt)
    else
      match WalkFromAsWritten(pts, 0, StartWalk(pts), rt)
      case Failure(e) => Failure(e)
      case Success(wk) => Success(Finish(pts, wk, rt))
  }

  /** A corner from `i` on that raises as written: refused, or accepted with short arcs. */
  predicate RaisesAsWritten(pts: seq<Point>, j: int, rt: Route)
    requires rt.Ok() && 0 <= j < |pts| - 2
  {
    Refused(pts, j, rt) || (Filletable(pts, j, rt) && ShortArcs(rt))
  }

  /** The walk as written raises exactly when some later corner is refused or accepted
      with short arcs; it raises whenever the corrected walk does, and when it does not
      raise it agrees with the corrected walk. */
  lemma {:induction false} WalkAsWrittenRaises(pts: seq<Point>, i: int, wk: Walk, rt: Route)
    requires rt.Ok() && 0 <= i <= |pts| - 2 && |wk.path| >= 1
    ensures WalkFromAsWritten(pts, i, wk, rt).Failure? <==>
            exists j :: i <= j < |pts| - 2 && RaisesAsWritten(pts, j, rt)
    ensures WalkFrom(pts, i, wk, rt).Failure? ==> WalkFromAsWritten(pts, i, wk, rt).Failure?
    ensures WalkFromAsWritten(pts, i, wk, rt).Success? ==>
            WalkFromAsWritten(pts, i, wk, rt) == WalkFrom(pts, i, wk, rt)
    decreases |pts| - i
  {
    if i < |pts| - 2 {
      if RaisesAsWritten(pts, i, rt) {
        assert WalkFromAsWritten(pts, i, wk, rt).Failure?;
      } else {
        var next := CornerStep(pts, i, wk, rt);
        assert next.Success?;
        assert CornerStepAsWritten(pts, i, wk, rt) == next;
        WalkAsWrittenRaises(pts, i + 1, next.value, rt);
        if WalkFromAsWritten(pts, i, wk, rt).Failure? {
          var j :| i + 1 <= j < |pts| - 2 && RaisesAsWritten(pts, j, rt);
        }
        if exists j :: i <= j < |pts| - 2 && RaisesAsWritten(pts, j, rt) {
          var j :| i <= j < |pts| - 2 && RaisesAsWritten(pts, j, rt);
          assert j != i;
        }
      }
    }
  }

  /** `fillet_path_and_draw` as written raises exactly when the radius is non-zero, the
      route has a corner, and some corner that is not excluded is refused, or is
      accepted while the arcs are short; it raises whenever the corrected route does, and
      when it does not raise it draws what the corrected route draws. */
  lemma FilletPathAsWrittenRaises(pts: seq<Point>, rt: Route)
    requires rt.Ok() && |pts| >= 2
    ensures FilletPathAsWritten(pts, rt).Failure? <==>
            rt.fillet != 0.0 && |pts| > 2 && exists j :: 0 <= j < |pts| - 2 && RaisesAsWritten(pts, j, rt)
    ensures FilletPath(pts, rt).Failure? ==> FilletPathAsWritten(pts, rt).Failure?
    ensures FilletPathAsWritten(pts, rt).Success? ==> FilletPathAsWritten(pts, rt) == FilletPath(pts, rt)
  {
    if rt.fillet != 0.0 && |pts| > 2 {
      WalkAsWrittenRaises(pts, 0, StartWalk(pts), rt);
    }
  }

  /** Primitives that agree with numpy on the axis-aligned input below: the taxicab
      norm equals the Euclidean one on axis-parallel vectors, and the unit vectors from
      the middle point towards its neighbours are opposite, so `arccos` gives pi. */
  function CollinearNumerics(): Numerics {
    Numerics((v: Point) => Abs(v.x) + Abs(v.y), (u: Point, v: Point) => Pi, (t: real) => 1.0,
             (a: Point, b: Point, c: Point, r: real, t: real) => ArcFrame(b, 0.0, 0.0),
             (t: real) => Point(1.0, 0.0))
  }

  /** Three equally spaced waypoints on the x-axis with fillet 1 and no excluded
      corner: the middle corner reaches `_calc_fillet`, which returns `False`, and the
      unpacking raises; the corrected walk keeps the corner sharp and returns the
      waypoints. */
  lemma CollinearCornerRaises(x: real)
    requires x > 0.0
    ensures var rt := Route(1.0, (c: real) => 0.01, 0.5, {}, CollinearNumerics());
      var pts := [Point(0.0, 0.0), Point(x, 0.0), Point(2.0 * x, 0.0)];
      && rt.Ok()
      && FilletPathAsWritten(pts, rt) == Failure(UnpackBool)
      && FilletPath(pts, rt).Success? && FilletPath(pts, rt).value.path == pts
  {
    var rt := Route(1.0, (c: real) => 0.01, 0.5, {}, CollinearNumerics());
    var pts := [Point(0.0, 0.0), Point(x, 0.0), Point(2.0 * x, 0.0)];
    assert Sound(rt.num);
    assert Refused(pts, 0, rt);
    FilletPathAsWrittenRaises(pts, rt);
    assert AllSharp(pts, rt);
    AllSharpIsStraight(pts, rt);
  }

  /** Primitives that agree with numpy on a right-angle corner between axis-parallel
      legs: the taxicab norm equals the Euclidean one there, `arccos` of the dot product
      of perpendicular unit vectors is pi/2, and `tan(pi/4)` is 1. */
  function RightAngleNumerics(): Numerics {
    Numerics((v: Point) => Abs(v.x) + Abs(v.y), (u: Point, v: Point) => Pi / 2.0, (t: real) => 1.0,
             (a: Point, b: Point, c: Point, r: real, t: real) => ArcFrame(b, 0.0, 0.0),
             (t: real) => Point(1.0, 0.0))
  }

  /** A right-angle corner with legs of length at least 1, fillet 1 and step 2: the
      corner is accepted, `int(pi/2 * 1/2)` is 0 arc samples, and `draw.Polygon` of the
      one-sample arc raises, in the corrected route as in the route as written. */
  lemma ShortArcCornerRaises(x: real)
    requires x >= 1.0
    ensures var rt := Route(1.0, (c: real) => 0.01, 2.0, {}, RightAngleNumerics());
      var pts := [Point(0.0, 0.0), Point(x, 0.0), Point(x, x)];
      && rt.Ok()
      && FilletPath(pts, rt) == Failure(ShortArcRing)
      && FilletPathAsWritten(pts, rt) == Failure(ShortArcRing)
  {
    var rt := Route(1.0, (c: real) => 0.01, 2.0, {}, RightAngleNumerics());
    var pts := [Point(0.0, 0.0), Point(x, 0.0), Point(x, x)];
    assert Sound(rt.num);
    ShortArcsWhen(rt);
    assert ShortArcs(rt);
    assert Filletable(pts, 0, rt);
    FilletPathFails(pts, rt);
    FilletPathAsWrittenRaises(pts, rt);
    assert CornerStepAsWritten(pts, 0, StartWalk(pts), rt) == Failure(ShortArcRing);
  }
}

/** The element builder of the route (`QRouteMod.make_elements`): one drawing per width
    profile, each used according to its role — a trace, a gap, the two halves of a
    coplanar waveguide, or the inner and outer edges of a ground buffer. */
module RouteElements {
  import opened Base
  import opened Geometry
  import opened RouteNumerics
  import opened RoutePath

  /** `param_width`: one width profile, or a list of them. */
  datatype WidthParam = OneProfile(f: real -> real) | Profiles(fs: seq<real -> real>)

  /** `layer`: one layer for every profile, or a list indexed by profile. */
  datatype LayerParam = OneLayer(layer: int) | Layers(layers: seq<int>)

  /** The route `type`: one role string, or a list of them. */
  datatype TypeParam = OneType(name: string) | Types(names: seq<string>)

  /** The start pin's `middle` and `normal`, which place the overlap pad. */
  datatype Pin = Pin(middle: Point, normal: Point)

  /** The polygon `fillet_path_and_draw` returns for one profile, or its exception. */
  type ModlineResult = Result<Option<Shape>, DrawError>

  /** One `add_qgeometry('poly', ...)` call: the shape, its layer and its subtract flag. */
  datatype Emitted = Emitted(shape: Option<Shape>, layer: int, subtract: bool)

  /** The exceptions the loop can raise. */
  datatype RouteError =
    | IndexError                // a layer or role list shorter than the profile list
    | CpwTooManyProfiles        // role CPW on a profile after the second
    | MissingInnerBuffer        // GND_BUFFER_OUTER with no earlier GND_BUFFER_INNER
    | UnknownRouteType(name: string)  // any other role, for a string `type`
    | ConcatTypeError           // any other role, for a list `type`: str + list
    | DrawFailed(e: DrawError)  // `fillet_path_and_draw` raised

  /** The local `inner_buffer_to_sub`: unbound until a GND_BUFFER_INNER profile runs. */
  datatype InnerCache = Unbound | Cached(poly: Option<Shape>)

  const RouteTag: string := "ROUTE"
  const GapTag: string := "GAP"
  const CpwTag: string := "CPW"
  const InnerTag: string := "GND_BUFFER_INNER"
  const OuterTag: string := "GND_BUFFER_OUTER"

  /** The branch of the dispatch a normalised tag selects. */
  datatype Role = RouteRole | GapRole | CpwRole | InnerRole | OuterRole | OtherRole

  function RoleOf(tag: string): Role {
    if tag == RouteTag then RouteRole
    else if tag == GapTag then GapRole
    else if tag == CpwTag then CpwRole
    else if tag == InnerTag then InnerRole
    else if tag == OuterTag then OuterRole
    else OtherRole
  }

  /** `str.upper` on one character (ASCII letters only). */
  function UpperChar(c: char): char {
    if 'a' <= c <= 'z' then (c as int - 32) as char else c
  }

  function Upper(s: string): (r: string)
    ensures |r| == |s|
  {
    if |s| == 0 then [] else [UpperChar(s[0])] + Upper(s[1..])
  }

  /** The ASCII whitespace `str.strip` removes. */
  predicate IsSpace(c: char) {
    c == ' ' || c == '\t' || c == '\n' || c == '\r' || c == 11 as char || c == 12 as char
  }

  function StripLeft(s: string): (r: string)
    ensures |r| <= |s|
  {
    if |s| > 0 && IsSpace(s[0]) then StripLeft(s[1..]) else s
  }

  function StripRight(s: string): (r: string)
    ensures |r| <= |s|
  {
    if |s| > 0 && IsSpace(s[|s| - 1]) then StripRight(s[..|s| - 1]) else s
  }

  /** `s.upper().strip()`: the role tag a profile is dispatched on. */
  function Tag(s: string): (r: string)
    ensures |r| <= |s|
  {
    StripRight(StripLeft(Upper(s)))
  }

  /** What one profile does: emit a geometry, or cache its polygon as the inner buffer. */
  datatype Action = AddGeometry(g: Emitted) | KeepInner(poly: Option<Shape>)

  /** The layer and the role selected for one profile. */
  datatype Selection = Selection(layer: int, role: Role)

  /** The state carried across profiles: the inner-buffer cache, the geometries emitted
      so far, and the exception that stopped the loop, if any. */
  datatype State = State(inner: InnerCache, emitted: seq<Emitted>, error: Option<RouteError>)

  /** The state after one profile's action. */
  function Advance(s: State, a: Result<Action, RouteError>): State {
    match a
    case Failure(e) => s.(error := Some(e))
    case Success(AddGeometry(g)) => s.(emitted := s.emitted + [g])
    case Success(KeepInner(p)) => s.(inner := Cached(p))
  }

  /** The overlap pad of a ROUTE profile: `height` long along the pin normal, as wide as
      the profile at arclength 0, centred `height/2` out from the pin middle. */
  function OverlapPad(pin: Pin, height: real, w: real -> real): (r: Rect)
    ensures pin.normal == Point(0.0, 1.0) ==> r.cx == pin.middle.x && r.cy - r.h / 2.0 == pin.middle.y
    ensures pin.normal == Point(0.0, -1.0) ==> r.cx == pin.middle.x && r.cy + r.h / 2.0 == pin.middle.y
    ensures pin.normal == Point(1.0, 0.0) ==> r.cy == pin.middle.y && r.cx - r.w / 2.0 == pin.middle.x
    ensures pin.normal == Point(-1.0, 0.0) ==> r.cy == pin.middle.y && r.cx + r.w / 2.0 == pin.middle.x
    ensures (pin.normal.x == 0.0 ==> r.h == height && r.w == w(0.0)) && (pin.normal.x != 0.0 ==> r.w == height && r.h == w(0.0))
  {
    var c := Add(pin.middle, Scale(height / 2.0, pin.normal));
    if pin.normal.x == 0.0 then Rect(c.x, c.y, w(0.0), height) else Rect(c.x, c.y, height, w(0.0))
  }

  /** Everything `make_elements` reads: the waypoints, the fillet walk's parameters (each
      profile replaces the width), the profiles, the layer and role options, the start
      pin and the parsed `overlap` height. */
  datatype ModRoute = ModRoute(pts: seq<Point>, base: Route, widths: WidthParam,
                               layer: LayerParam, kind: TypeParam, start: Pin, overlap: real)
  {
    ghost predicate Ok() {
      base.Ok() && |pts| >= 2
    }

    /** A single callable is wrapped into a one-element list. */
    function Profiles(): seq<real -> real> {
      match widths
      case OneProfile(f) => [f]
      case Profiles(fs) => fs
    }

    /** The fillet walk with profile `k` as its width. */
    function RouteFor(k: int): Route
      requires 0 <= k < |Profiles()|
    {
      base.(w := Profiles()[k])
    }

    /** The polygon `fillet_path_and_draw` draws for profile `k`, or its exception. */
    function Modline(k: int): ModlineResult
      requires Ok() && 0 <= k < |Profiles()|
    {
      match FilletPath(pts, RouteFor(k))
      case Failure(e) => Failure(e)
      case Success(drawing) => Success(drawing.poly)
    }

    /** The drawings of the first `n` profiles. */
    function ModlinesUpTo(n: int): (d: seq<ModlineResult>)
      requires Ok() && 0 <= n <= |Profiles()|
      ensures |d| == n
    {
      if n == 0 then [] else ModlinesUpTo(n - 1) + [Modline(n - 1)]
    }

    /** The drawing of every profile. */
    function Modlines(): (d: seq<ModlineResult>)
      requires Ok()
      ensures |d| == |Profiles()|
    {
      ModlinesUpTo(|Profiles()|)
    }

    /** `d` holds the drawing of every profile. */
    ghost predicate Drawn(d: seq<ModlineResult>)
      requires Ok()
    {
      |d| == |Profiles()| && forall k {:trigger Modline(k)} :: 0 <= k < |d| ==> d[k] == Modline(k)
    }

    /** The layer of profile `k`: indexed when `layer` is a list. */
    function LayerAt(k: int): Result<int, RouteError>
      requires 0 <= k
    {
      match layer
      case OneLayer(l) => Success(l)
      case Layers(ls) => if k < |ls| then Success(ls[k]) else Failure(IndexError)
    }

    /** The role string of profile `k` before normalisation: indexed when either `type`
        or `layer` is a list, so a string `type` with a list `layer` yields one character. */
    function RawType(k: int): Result<string, RouteError>
      requires 0 <= k
    {
      match kind
      case Types(ts) => if k < |ts| then Success(ts[k]) else Failure(IndexError)
      case OneType(s) =>
        if layer.Layers? then (if k < |s| then Success([s[k]]) else Failure(IndexError))
        else Success(s)
    }

    /** The layer, then the role, of profile `k`. */
    function Select(k: int): Result<Selection, RouteError>
      requires 0 <= k
    {
      match LayerAt(k)
      case Failure(e) => Failure(e)
      case Success(l) =>
        match RawType(k)
        case Failure(e) => Failure(e)
        case Success(raw) => Success(Selection(l, RoleOf(Tag(raw))))
    }

    /** The selections of the first `n` profiles. */
    function SelectionsUpTo(n: int): (sels: seq<Result<Selection, RouteError>>)
      requires 0 <= n
      ensures |sels| == n
    {
      if n == 0 then [] else SelectionsUpTo(n - 1) + [Select(n - 1)]
    }

    /** The layer and role selection of every profile. */
    function Selections(): (sels: seq<Result<Selection, RouteError>>)
      ensures |sels| == |Profiles()|
    {
      SelectionsUpTo(|Profiles()|)
    }

    /** The message of the catch-all branch needs `type` to be a string. */
    function UnknownType(): RouteError {
      if kind.OneType? then UnknownRouteType(kind.name) else ConcatTypeError
    }

    /** The ROUTE shape: the drawing, joined with the overlap pad unless the height is 0. */
    function RouteShape(k: int, modline: Option<Shape>): Option<Shape>
      requires 0 <= k < |Profiles()|
    {
      if overlap != 0.0 then
        Some(Union([modline, Some(Box(OverlapPad(start, overlap, Profiles()[k])))]))
      else modline
    }

    /** One pass of the loop on profile `k`, with selection `sel` and drawn as `modline`:
        the role dispatch. */
    function Act(k: int, sel: Result<Selection, RouteError>, modline: Option<Shape>,
                 inner: InnerCache): Result<Action, RouteError>
      requires 0 <= k < |Profiles()|
    {
      match sel
      case Failure(e) => Failure(e)
      case Success(Selection(l, role)) =>
        match role
        case RouteRole => Success(AddGeometry(Emitted(RouteShape(k, modline), l, false)))
        case GapRole => Success(AddGeometry(Emitted(modline, l, true)))
        case CpwRole =>
          if k == 0 then Success(AddGeometry(Emitted(modline, l, false)))
          else if k == 1 then Success(AddGeometry(Emitted(modline, l, true)))
          else Failure(CpwTooManyProfiles)
        case InnerRole => Success(KeepInner(modline))
        case OuterRole =>
          (match inner
           case Unbound => Failure(MissingInnerBuffer)
           case Cached(p) => Success(AddGeometry(Emitted(Some(Difference(modline, p)), l, false))))
        case OtherRole => Failure(UnknownType())
    }

    /** One pass of the loop on profile `k`: `fillet_path_and_draw` runs first, so its
        exception comes before the layer and role selection; then the role dispatch. */
    function Step(k: int, sel: Result<Selection, RouteError>, drawn: ModlineResult,
                  inner: InnerCache): Result<Action, RouteError>
      requires 0 <= k < |Profiles()|
    {
      match drawn
      case Failure(e) => Failure(DrawFailed(e))
      case Success(modline) => Act(k, sel, modline, inner)
    }

    /** The state after the first `k` profiles, selected as `sels` and drawn as `d`; an
        exception ends the loop. */
    function StateAt(sels: seq<Result<Selection, RouteError>>, d: seq<ModlineResult>, k: int): State
      requires |sels| == |Profiles()| && |d| == |Profiles()| && 0 <= k <= |d|
      decreases k
    {
      if k == 0 then State(Unbound, [], None)
      else
        var s := StateAt(sels, d, k - 1);
        if s.error.Some? then s else Advance(s, Step(k - 1, sels[k - 1], d[k - 1], s.inner))
    }

    /** What `make_elements` leaves behind: every geometry added before it returned or
        raised, and the exception, if any. */
    function Result(): State
      requires Ok()
    {
      StateAt(Selections(), Modlines(), |Profiles()|)
    }
  }

  /** The role a selection names, if it succeeded. */
  function RoleIn(sels: seq<Result<Selection, RouteError>>, k: int): Option<Role>
    requires 0 <= k < |sels|
  {
    if sels[k].Success? then Some(sels[k].value.role) else None
  }

  /** Profiles before `k` whose role is GND_BUFFER_INNER. */
  function InnerCount(sels: seq<Result<Selection, RouteError>>, k: int): nat
    requires 0 <= k <= |sels|
    decreases k
  {
    if k == 0 then 0 else InnerCount(sels, k - 1) + (if RoleIn(sels, k - 1) == Some(InnerRole) then 1 else 0)
  }

  /** `QRouteMod.make_elements` after the length bookkeeping: draws every profile, picks
      its layer and role, and adds its geometry or caches it as the inner buffer. */
  method MakeElements(m: ModRoute) returns (emitted: seq<Emitted>, error: Option<RouteError>)
    requires m.Ok()
    ensures emitted == m.Result().emitted && error == m.Result().error
  {
    ghost var sels, d := m.Selections(), m.Modlines();
    ModlinesDrawn(m);
    emitted, error := ProfileLoop(m, sels, d);
  }

  /** The loop of `make_elements` over the width profiles, which selects them as `sels`
      and draws them as `d`; an exception leaves the loop. */
  method ProfileLoop(m: ModRoute, ghost sels: seq<Result<Selection, RouteError>>,
                     ghost d: seq<ModlineResult>)
    returns (emitted: seq<Emitted>, error: Option<RouteError>)
    requires m.Ok() && sels == m.Selections() && m.Drawn(d)
    ensures emitted == m.StateAt(sels, d, |d|).emitted && error == m.StateAt(sels, d, |d|).error
  {
    var profiles := match m.widths case OneProfile(f) => [f] case Profiles(fs) => fs;
    var inner := Unbound;
    emitted := [];
    error := None;
    var k := 0;
    while k < |profiles|
      invariant 0 <= k <= |profiles| && profiles == m.Profiles()
      invariant m.StateAt(sels, d, k) == State(inner, emitted, None)
    {
      var raised;
      inner, emitted, raised := ProcessProfile(m, k, inner, emitted, sels, d);
      if raised.Some? {
        error := raised;
        Stopped(m, sels, d, k + 1);
        return;
      }
      k := k + 1;
    }
  }

  /** One pass of the loop of `make_elements` on profile `k`: the drawing, the layer and
      role selection, the dispatch, and the `add_qgeometry` call or the cache update. */
  method ProcessProfile(m: ModRoute, k: int, inner: InnerCache, emitted: seq<Emitted>,
                        ghost sels: seq<Result<Selection, RouteError>>, ghost d: seq<ModlineResult>)
    returns (inner': InnerCache, emitted': seq<Emitted>, error: Option<RouteError>)
    requires m.Ok() && 0 <= k < |m.Profiles()| && sels == m.Selections() && m.Drawn(d)
    requires m.StateAt(sels, d, k) == State(inner, emitted, None)
    ensures m.StateAt(sels, d, k + 1) == State(inner', emitted', error)
  {
    var modline := DrawModline(m, k);
    var action: Result<Action, RouteError>;
    if modline.Failure? {
      action := Failure(DrawFailed(modline.error));
    } else {
      var sel := SelectProfile(m, k);
      action := Dispatch(m, k, sel, modline.value, inner);
    }
    NextState(m, sels, d, k, State(inner, emitted, None), action);
    inner', emitted', error := inner, emitted, None;
    match action {
      case Failure(e) =>
        error := Some(e);
      case Success(AddGeometry(g)) =>
        emitted' := emitted + [g];
      case Success(KeepInner(p)) =>
        inner' := Cached(p);
    }
  }

  /** `self.fillet_path_and_draw(pts, w_func)` for profile `k`, keeping the polygon. */
  method DrawModline(m: ModRoute, k: int) returns (modline: ModlineResult)
    requires m.Ok() && 0 <= k < |m.Profiles()|
    ensures modline == m.Modline(k)
  {
    var drawing := FilletPathAndDraw(m.pts, m.base.(w := m.Profiles()[k]));
    match drawing {
      case Failure(e) => modline := Failure(e);
      case Success(dr) => modline := Success(dr.poly);
    }
  }

  /** The drawings `make_elements` specifies are those of every profile. */
  lemma ModlinesDrawn(m: ModRoute)
    requires m.Ok()
    ensures m.Drawn(m.Modlines())
  {
    forall k | 0 <= k < |m.Profiles()|
      ensures m.Modlines()[k] == m.Modline(k)
    {
      ModlineAt(m, |m.Profiles()|, k);
    }
  }

  /** Entry `k` of the drawings is the drawing of profile `k`. */
  lemma {:induction false} ModlineAt(m: ModRoute, n: int, k: int)
    requires m.Ok() && 0 <= k < n <= |m.Profiles()|
    ensures m.ModlinesUpTo(n)[k] == m.Modline(k)
    decreases n
  {
    if k < n - 1 {
      ModlineAt(m, n - 1, k);
    }
  }

  /** Entry `k` of the selections is the selection of profile `k`. */
  lemma {:induction false} SelectionAt(m: ModRoute, n: int, k: int)
    requires 0 <= k < n
    ensures m.SelectionsUpTo(n)[k] == m.Select(k)
    decreases n
  {
    if k < n - 1 {
      SelectionAt(m, n - 1, k);
    }
  }

  /** The layer of profile `k` (indexed when `layer` is a list), then its role string
      (indexed when `type` or `layer` is a list), upper-cased and stripped. */
  method SelectProfile(m: ModRoute, k: int) returns (sel: Result<Selection, RouteError>)
    requires 0 <= k < |m.Profiles()|
    ensures sel == m.Selections()[k]
  {
    SelectionAt(m, |m.Profiles()|, k);
    var layer: int;
    match m.layer {
      case OneLayer(l) => layer := l;
      case Layers(ls) =>
        if k >= |ls| {
          return Failure(IndexError);
        }
        layer := ls[k];
    }
    var raw: string;
    match m.kind {
      case Types(ts) =>
        if k >= |ts| {
          return Failure(IndexError);
        }
        raw := ts[k];
      case OneType(s) =>
        if m.layer.Layers? {
          if k >= |s| {
            return Failure(IndexError);
          }
          raw := [s[k]];
        } else {
          raw := s;
        }
    }
    var tag := Tag(raw);
    var role := if tag == RouteTag then RouteRole
                else if tag == GapTag then GapRole
                else if tag == CpwTag then CpwRole
                else if tag == InnerTag then InnerRole
                else if tag == OuterTag then OuterRole
                else OtherRole;
    sel := Success(Selection(layer, role));
  }

  /** The role dispatch of profile `k`, drawn as `modline`: the subtract flag of ROUTE,
      GAP and CPW, the overlap pad of ROUTE, the inner-buffer cache, and the exceptions. */
  method Dispatch(m: ModRoute, k: int, sel: Result<Selection, RouteError>, modline: Option<Shape>,
                  inner: InnerCache) returns (action: Result<Action, RouteError>)
    requires 0 <= k < |m.Profiles()|
    ensures action == m.Act(k, sel, modline, inner)
  {
    if sel.Failure? {
      return Failure(sel.error);
    }
    var layer, role := sel.value.layer, sel.value.role;
    var shape := modline;
    var subtract := false;
    match role {
      case RouteRole =>
        subtract := false;
        if m.overlap != 0.0 {
          var w := m.Profiles()[k];
          var c := Add(m.start.middle, Scale(m.overlap / 2.0, m.start.normal));
          var pad := if m.start.normal.x == 0.0 then Rect(c.x, c.y, w(0.0), m.overlap)
                     else Rect(c.x, c.y, m.overlap, w(0.0));
          shape := Some(Union([modline, Some(Box(pad))]));
        }
      case GapRole =>
        subtract := true;
      case CpwRole =>
        if k == 0 {
          subtract := false;
        } else if k == 1 {
          subtract := true;
        } else {
          return Failure(CpwTooManyProfiles);
        }
      case InnerRole =>
        return Success(KeepInner(modline));
      case OuterRole =>
        match inner {
          case Unbound =>
            return Failure(MissingInnerBuffer);
          case Cached(p) =>
            shape := Some(Difference(modline, p));
        }
        subtract := false;
      case OtherRole =>
        return Failure(if m.kind.OneType? then UnknownRouteType(m.kind.name) else ConcatTypeError);
    }
    action := Success(AddGeometry(Emitted(shape, layer, subtract)));
  }

  /** The state after profile `k` is its action applied to the state before it. */
  lemma NextState(m: ModRoute, sels: seq<Result<Selection, RouteError>>, d: seq<ModlineResult>,
                  k: int, s: State, a: Result<Action, RouteError>)
    requires |sels| == |m.Profiles()| && |d| == |m.Profiles()| && 0 <= k < |d|
    requires m.StateAt(sels, d, k) == s && s.error.None?
    requires a == m.Step(k, sels[k], d[k], s.inner)
    ensures m.StateAt(sels, d, k + 1) == Advance(s, a)
  {
  }

  /** Once an exception is raised, nothing after it changes the outcome. */
  lemma Stopped(m: ModRoute, sels: seq<Result<Selection, RouteError>>, d: seq<ModlineResult>, k: int)
    requires |sels| == |m.Profiles()| && |d| == |m.Profiles()| && 0 <= k <= |d|
    requires m.StateAt(sels, d, k).error.Some?
    ensures m.StateAt(sels, d, |d|) == m.StateAt(sels, d, k)
  {
    ErrorSticks(m, sels, d, k, |d|);
  }

  lemma {:induction false} ErrorSticks(m: ModRoute, sels: seq<Result<Selection, RouteError>>,
                                       d: seq<ModlineResult>, j: int, k: int)
    requires |sels| == |m.Profiles()| && |d| == |m.Profiles()| && 0 <= j <= k <= |d|
    requires m.StateAt(sels, d, j).error.Some?
    ensures m.StateAt(sels, d, k) == m.StateAt(sels, d, j)
    decreases k
  {
    if k > j {
      ErrorSticks(m, sels, d, j, k - 1);
    }
  }

  /** A profile whose pass succeeds was drawn and had its layer and role selected, and
      it becomes the inner buffer, holding its own drawing, exactly when its role is
      GND_BUFFER_INNER. */
  lemma ActionRole(m: ModRoute, k: int, sel: Result<Selection, RouteError>, drawn: ModlineResult,
                   inner: InnerCache)
    requires 0 <= k < |m.Profiles()|
    requires m.Step(k, sel, drawn, inner).Success?
    ensures drawn.Success? && sel.Success?
    ensures m.Step(k, sel, drawn, inner).value.KeepInner? <==> sel.value.role == InnerRole
    ensures m.Step(k, sel, drawn, inner).value.KeepInner? ==>
      m.Step(k, sel, drawn, inner).value.poly == drawn.value
  {
  }

  /** Only the five role tags select a branch of the dispatch, and each is at least three
      characters long. */
  lemma RoleTagsLong(t: string)
    requires RoleOf(t) != OtherRole
    ensures t == RouteTag || t == GapTag || t == CpwTag || t == InnerTag || t == OuterTag
    ensures |t| >= 3
  {
  }

  /** The role dispatch of one profile, once the loop has reached it: a drawing that
      raised ends the loop before the selection; otherwise ROUTE and GAP add the drawing
      with subtract false and true; CPW does so for the first two profiles only;
      GND_BUFFER_INNER replaces the cache and adds nothing; GND_BUFFER_OUTER adds the
      drawing minus the cache. It raises exactly for CPW past the second profile,
      GND_BUFFER_OUTER without a cache, an unknown tag, or a failed selection. */
  lemma ProfileRoles(m: ModRoute, sels: seq<Result<Selection, RouteError>>, d: seq<ModlineResult>,
                     k: int)
    requires |sels| == |m.Profiles()| && |d| == |m.Profiles()| && 0 <= k < |d|
    requires m.StateAt(sels, d, k).error.None?
    ensures d[k].Failure? ==> m.StateAt(sels, d, k + 1) == m.StateAt(sels, d, k).(error := Some(DrawFailed(d[k].error)))
    ensures d[k].Success? && sels[k].Failure? ==> m.StateAt(sels, d, k + 1).error == Some(sels[k].error)
    ensures d[k].Success? && sels[k].Success? ==>
      var r, s, l, dk := sels[k].value.role, m.StateAt(sels, d, k), sels[k].value.layer, d[k].value;
      && (r == InnerRole ==> m.StateAt(sels, d, k + 1) == s.(inner := Cached(dk)))
      && (r == RouteRole ==>
            m.StateAt(sels, d, k + 1) == s.(emitted := s.emitted + [Emitted(m.RouteShape(k, dk), l, false)]))
      && (r == GapRole || (r == CpwRole && k <= 1) ==>
            m.StateAt(sels, d, k + 1) == s.(emitted := s.emitted + [Emitted(dk, l, r == GapRole || k == 1)]))
      && (r == OuterRole && s.inner.Cached? ==>
            m.StateAt(sels, d, k + 1) ==
              s.(emitted := s.emitted + [Emitted(Some(Difference(dk, s.inner.poly)), l, false)]))
      && (m.StateAt(sels, d, k + 1).error.Some? <==>
            (r == CpwRole && k >= 2) || (r == OuterRole && s.inner.Unbound?) || r == OtherRole)
      && (r == CpwRole && k >= 2 ==> m.StateAt(sels, d, k + 1).error == Some(CpwTooManyProfiles))
      && (r == OuterRole && s.inner.Unbound? ==> m.StateAt(sels, d, k + 1).error == Some(MissingInnerBuffer))
      && (r == OtherRole ==> m.StateAt(sels, d, k + 1).error == Some(m.UnknownType()))
  {
  }

  /** Profile `j` is the last GND_BUFFER_INNER profile before profile `k`. */
  ghost predicate IsLatestInner(sels: seq<Result<Selection, RouteError>>, j: int, k: int)
    requires k <= |sels|
  {
    && 0 <= j < k
    && RoleIn(sels, j) == Some(InnerRole)
    && (forall i :: j < i < k ==> RoleIn(sels, i) != Some(InnerRole))
  }

  /** While the loop runs, the cache is bound exactly when an earlier profile was
      GND_BUFFER_INNER, and then it holds the drawing of the latest such profile. */
  lemma {:induction false} LatestInner(m: ModRoute, sels: seq<Result<Selection, RouteError>>,
                                       d: seq<ModlineResult>, k: int)
    requires |sels| == |m.Profiles()| && |d| == |m.Profiles()| && 0 <= k <= |d|
    requires m.StateAt(sels, d, k).error.None?
    ensures m.StateAt(sels, d, k).inner.Cached? <==> InnerCount(sels, k) > 0
    ensures forall j :: IsLatestInner(sels, j, k) ==> d[j].Success? && m.StateAt(sels, d, k).inner == Cached(d[j].value)
  {
    if k > 0 {
      var s := m.StateAt(sels, d, k - 1);
      assert s.error.None?;
      var a := m.Step(k - 1, sels[k - 1], d[k - 1], s.inner);
      NextState(m, sels, d, k - 1, s, a);
      ActionRole(m, k - 1, sels[k - 1], d[k - 1], s.inner);
      LatestInner(m, sels, d, k - 1);
      forall j | IsLatestInner(sels, j, k)
        ensures d[j].Success? && m.StateAt(sels, d, k).inner == Cached(d[j].value)
      {
        if j < k - 1 {
          assert RoleIn(sels, k - 1) != Some(InnerRole);
          assert IsLatestInner(sels, j, k - 1);
        }
      }
      if RoleIn(sels, k - 1) != Some(InnerRole) && InnerCount(sels, k - 1) > 0 {
        var j := LatestBefore(sels, k - 1);
        assert IsLatestInner(sels, j, k - 1);
      }
    }
  }

  /** Some profile before `k` is the latest GND_BUFFER_INNER one when any is. */
  lemma {:induction false} LatestBefore(sels: seq<Result<Selection, RouteError>>, k: int) returns (j: int)
    requires 0 <= k <= |sels| && InnerCount(sels, k) > 0
    ensures IsLatestInner(sels, j, k)
    decreases k
  {
    if RoleIn(sels, k - 1) == Some(InnerRole) {
      j := k - 1;
    } else {
      j := LatestBefore(sels, k - 1);
    }
  }

  /** GND_BUFFER_OUTER subtracts the drawing of the latest earlier GND_BUFFER_INNER
      profile, and adds the result on its own layer, not subtracted. */
  lemma OuterUsesLatestInner(m: ModRoute, sels: seq<Result<Selection, RouteError>>,
                             d: seq<ModlineResult>, j: int, k: int)
    requires |sels| == |m.Profiles()| && |d| == |m.Profiles()| && 0 <= k < |d|
    requires m.StateAt(sels, d, k).error.None? && RoleIn(sels, k) == Some(OuterRole) && d[k].Success?
    requires IsLatestInner(sels, j, k)
    ensures d[j].Success? && m.StateAt(sels, d, k + 1).error.None?
    ensures m.StateAt(sels, d, k + 1).emitted == m.StateAt(sels, d, k).emitted
      + [Emitted(Some(Difference(d[k].value, d[j].value)), sels[k].value.layer, false)]
  {
    LatestInner(m, sels, d, k);
    ProfileRoles(m, sels, d, k);
  }

  /** GND_BUFFER_OUTER with no earlier GND_BUFFER_INNER profile ends the loop with the
      missing-inner-buffer exception. */
  lemma OuterWithoutInnerRaises(m: ModRoute, sels: seq<Result<Selection, RouteError>>,
                                d: seq<ModlineResult>, k: int)
    requires |sels| == |m.Profiles()| && |d| == |m.Profiles()| && 0 <= k < |d|
    requires m.StateAt(sels, d, k).error.None? && RoleIn(sels, k) == Some(OuterRole) && d[k].Success?
    requires InnerCount(sels, k) == 0
    ensures m.StateAt(sels, d, |d|).error == Some(MissingInnerBuffer)
    ensures m.StateAt(sels, d, |d|).emitted == m.StateAt(sels, d, k).emitted
  {
    LatestInner(m, sels, d, k);
    ProfileRoles(m, sels, d, k);
    Stopped(m, sels, d, k + 1);
  }

  /** A single role string with a list of layers selects the first profile's role from
      one character of the string (or from nothing), which names no role: the loop raises
      before adding any geometry. */
  lemma ScalarRoleWithLayerList(m: ModRoute)
    requires m.Ok() && m.kind.OneType? && m.layer.Layers? && |m.Profiles()| >= 1
    ensures m.Result().error.Some?
    ensures m.Result().emitted == []
  {
    var sels, d := m.Selections(), m.Modlines();
    SelectionAt(m, |m.Profiles()|, 0);
    if m.Select(0).Success? {
      var raw := m.RawType(0).value;
      assert |raw| == 1;
      if RoleOf(Tag(raw)) != OtherRole {
        RoleTagsLong(Tag(raw));
        assert false;
      }
    }
    ProfileRoles(m, sels, d, 0);
    Stopped(m, sels, d, 1);
  }

  /** Whether `fillet_path_and_draw` raises does not depend on the width profile: every
      profile's drawing raises exactly when the route's does. */
  lemma ModlineFailsAlike(m: ModRoute, k: int)
    requires m.Ok() && 0 <= k < |m.Profiles()|
    ensures m.Modline(k).Failure? <==> FilletPath(m.pts, m.base).Failure?
    ensures m.Modline(k).Failure? ==> m.Modline(k).error == ShortArcRing
  {
    FailsForAnyProfile(m.pts, m.base, m.Profiles()[k]);
  }

  /** A route that cannot be drawn (a filleted corner sampled once) raises in the first
      profile's `fillet_path_and_draw`, before any layer or role is looked at and before
      any geometry is added. */
  lemma UndrawableRouteRaises(m: ModRoute)
    requires m.Ok() && |m.Profiles()| >= 1 && FilletPath(m.pts, m.base).Failure?
    ensures m.Result() == State(Unbound, [], Some(DrawFailed(ShortArcRing)))
  {
    var sels, d := m.Selections(), m.Modlines();
    ModlineFailsAlike(m, 0);
    ModlineAt(m, |m.Profiles()|, 0);
    assert m.StateAt(sels, d, 1) == State(Unbound, [], Some(DrawFailed(ShortArcRing)));
    Stopped(m, sels, d, 1);
  }

  /** Until an exception, every profile but the GND_BUFFER_INNER ones adds exactly one
      geometry. */
  lemma {:induction false} EmissionCount(m: ModRoute, sels: seq<Result<Selection, RouteError>>,
                                         d: seq<ModlineResult>, k: int)
    requires |sels| == |m.Profiles()| && |d| == |m.Profiles()| && 0 <= k <= |d|
    requires m.StateAt(sels, d, k).error.None?
    ensures |m.StateAt(sels, d, k).emitted| == k - InnerCount(sels, k)
  {
    if k > 0 {
      var s := m.StateAt(sels, d, k - 1);
      assert s.error.None?;
      var a := m.Step(k - 1, sels[k - 1], d[k - 1], s.inner);
      NextState(m, sels, d, k - 1, s, a);
      ActionRole(m, k - 1, sels[k - 1], d[k - 1], s.inner);
      EmissionCount(m, sels, d, k - 1);
    }
  }

  /** The overlap pad's side nearest the pin passes through the pin middle when the
      normal is a unit axis vector, and the pad reaches `height` out along the normal. */
  lemma OverlapPadTouchesPin(pin: Pin, height: real, w: real -> real)
    ensures pin.normal == Point(0.0, 1.0) || pin.normal == Point(0.0, -1.0) ==>
      var pad := OverlapPad(pin, height, w);
      pad.cx == pin.middle.x && pad.cy - pin.normal.y * pad.h / 2.0 == pin.middle.y
        && pad.cy + pin.normal.y * pad.h / 2.0 == pin.middle.y + pin.normal.y * height
    ensures pin.normal == Point(1.0, 0.0) || pin.normal == Point(-1.0, 0.0) ==>
      var pad := OverlapPad(pin, height, w);
      pad.cy == pin.middle.y && pad.cx - pin.normal.x * pad.w / 2.0 == pin.middle.x
        && pad.cx + pin.normal.x * pad.w / 2.0 == pin.middle.x + pin.normal.x * height
  {
  }
}

# qiskit-metal user components: a Dafny model

This project models the user components of a qiskit-metal fork. These components
place and name layout geometry for superconducting circuits:

- **`QRouteMod`** (`qroutemod.py`): a CPW route whose width varies along its length.
  - It walks the waypoints and fillets each corner it can with a sampled circular arc.
  - It rasterises every straight stretch into a polygon whose half-width comes from a
    width profile, evaluated at the running arclength.
  - For each width profile it adds one `modline` polygon. The route type decides
    whether that polygon is drawn, subtracted, kept as the inner limit of a ground
    buffer, or cut out of the outer buffer.
- **`JJ_with_pads`** (`jj_with_pads_v2.py`): a proximity-corrected Josephson junction.
  - Each side of the bridge is split into `proximity_cuts_number` pairs of cut
    rectangles plus one bulk rectangle.
  - Each cut pair goes on its own dose layer.
- **`JJ_chain_with_pads`** (`jj_chain_with_pads_v2.py`): `n_jj` junction cells in a row.
  - It adds two outer leads.
  - It adds a side lead every `lateral_pads_period` cells.
- **`circuFlatDoubleCell` / `circuFlatLine`** (`circuFlatV2_1.py`):
  - The cell's eight shifted junctions, with their cut rows, layers and names.
  - The corner-anchored rectangle helper.
  - The row of cells the line draws, each with its affix and end rounding.
- **`PinPad`** (`pin_pad.py`): one or more rectangles that share their left edge, with
  the pin taken from the first rectangle.
- **`LineTeeMultiMat`** (`line_tee_multimat.py`): a CPW tee built from a primary line,
  a secondary line, a pad and a pocket. Its `layer` and `impedance` options are
  normalised to lists.
- **`QRoute_mm`** (`qRouteMultiMat/qroute_mm.py`): a route's trace and, for a CPW, its
  cut, on two layers.

**Modules.**

| module | what it holds |
|---|---|
| `Base` | `Option` and `Result`; Python's `int()`, `//` and `np.ceil` on reals; `range` lengths; list reversal; an exact product `Multiple` used where a loop index is multiplied by a real. |
| `Geometry` | Points and rectangles. Shapes are opaque terms: polygon, box, union, difference, line string. |
| `Qgeometry` | A qgeometry row (`Element`: name, shape, layer, subtract flag, width). A scalar-or-list option (`Param`). The Python exceptions that can be raised. `str(i)` for naturals. |
| `RouteNumerics` | The numpy functions the route builder needs (norm, arccos, tan, the fillet frame). They are passed in as a `Numerics` value whose soundness condition lists what the proofs assume of them. |
| `RouteSegment`, `RouteFillet`, `RoutePath`, `RouteElements` | `straight_segment`, `_calc_fillet`, `fillet_path_and_draw` and `make_elements` of `QRouteMod`. |
| `JjWithPads` | `proximity_corrected_jj` (both variants) and the cut-row loop shared by the junction components. |
| `JjChain`, `CircuFlat`, `PinPad`, `LineTee`, `QrouteMm` | The other components. |

**How the code is modelled.**

- Where the Python code works step by step, the model has a method with a loop. Each
  such method is proved equal to a specification function, and the properties are
  proved as lemmas about that function.
- Each error path is a `Failure` of a `Result` datatype.
- Every component is described in its own frame. The final rotation by `orientation`
  and translation by `pos_x`, `pos_y` are left to the geometry library.
- The arc sample count `int(pi/2*fillet/step)` (`qroutemod.py:219`) is below 2 exactly
  when `pi*fillet < 4*step` (`RoutePath.ShortArcsWhen`). No precondition excludes this.
  - The division by `points-1` at line 316 is a numpy float division. It gives an
    infinity rather than an exception.
  - The sampling loop over `np.linspace(...)[1:]` is then empty. One left and one right
    point reach `draw.Polygon` at line 337, and a ring of two coordinates makes it raise.
  - The model returns this as `FilletOutcome.TwoPointRing`, and the route as the error
    `DrawError.ShortArcRing`.
  - `fillet_path_and_draw` raises exactly when the arcs are short and some corner is
    accepted by `_calc_fillet` (`RoutePath.FilletPathFails`).
  - `make_elements` then raises in its first profile, before adding any geometry
    (`RouteElements.UndrawableRouteRaises`).

**Where the documented intent and the code disagree, the model follows the code.** The
route builder is documented as drawing straight through a corner it cannot fillet. The
code does that only for corners it excludes in advance. For any other infeasible
corner, `_calc_fillet` returns a bare `False` and the caller's three-way unpacking
raises. The model keeps this as-written behaviour and proves when it raises. The rest
of the model uses the evidently intended fallback (see Findings).

## Model

All paths are under `qiskit_metal/qlibrary/user_components/`.

| member | source | states |
|---|---|---|
| Base.Trunc | qiskit_metal/qlibrary/user_components/qroutemod.py:219 | Python's `int()` on a real truncates toward zero: for x ≥ 0 the result t satisfies t ≤ x < t+1, and for x < 0 it satisfies t-1 < x ≤ t |
| Base.Ceil | qiskit_metal/qlibrary/user_components/qroutemod.py:354 | `np.ceil`: the least integer c with x ≤ c < x+1 |
| Base.FloorDiv | qiskit_metal/qlibrary/user_components/jj_chain_with_pads_v2.py:265 | Python's `//` floors for both signs of the divisor: q*d ≤ n < q*d+d for d > 0, and the mirror inequality for d < 0 |
| Base.RangeLength | qiskit_metal/qlibrary/user_components/jj_chain_with_pads_v2.py:256 | `range(n)` has n elements when n ≥ 0 and none otherwise |
| Base.Reversed | qiskit_metal/qlibrary/user_components/qroutemod.py:371 | `list.reverse()`: same length, element k is element `n-1-k` of the input |
| Base.MultipleIsProduct | qiskit_metal/qlibrary/user_components/jj_chain_with_pads_v2.py:257 | the recursively defined multiple `k` times `d` equals the product `k*d` |
| Base.Times | qiskit_metal/qlibrary/user_components/jj_chain_with_pads_v2.py:257 | `i_jj*jj_to_jj_dist` computed by the method equals the multiple the layout functions use |
| Qgeometry.AsList | qiskit_metal/qlibrary/user_components/pin_pad.py:21-28 | a scalar option becomes a one-element list and a list is kept as it is |
| Qgeometry.ToTwo | qiskit_metal/qlibrary/user_components/qRouteMultiMat/qroute_mm.py:21-24 | a one-element layer list is doubled, any other list is kept |
| Qgeometry.ToTwoSecond | qiskit_metal/qlibrary/user_components/qRouteMultiMat/qroute_mm.py:21-24 | the normalised list has a second element exactly when the input is non-empty, and every element comes from the input |
| Qgeometry.NatToStringRoundTrip | qiskit_metal/qlibrary/user_components/jj_with_pads_v2.py:174 | `str(i)` of a natural is a decimal digit string that reads back as i |
| Qgeometry.NatToStringInjective | qiskit_metal/qlibrary/user_components/circuFlatV2_1.py:980 | distinct naturals have distinct decimal strings |
| RouteSegment.TurnDirection | qiskit_metal/qlibrary/user_components/qroutemod.py:32-46 | the turn at the middle point is 'L' or 'R' |
| RouteSegment.TurnDirectionLeft | qiskit_metal/qlibrary/user_components/qroutemod.py:32-46 | the turn is 'L' exactly when the cross product of the incoming and outgoing edges is positive and 'R' exactly when it is not, so a repeated point reads as 'R' |
| RouteSegment.TurnDirectionReversed | qiskit_metal/qlibrary/user_components/qroutemod.py:41-46 | walking the three points backwards turns the other way, except for collinear points, which are 'R' both ways |
| RouteSegment.SampleCount | qiskit_metal/qlibrary/user_components/qroutemod.py:353-355 | a non-degenerate segment is sampled at no fewer than 2 points |
| RouteSegment.SampleSpacing | qiskit_metal/qlibrary/user_components/qroutemod.py:354-355 | consecutive samples of a segment are at most `step` apart along it |
| RouteSegment.StraightSegment | qiskit_metal/qlibrary/user_components/qroutemod.py:340-375 | the method's polygon is the specified segment polygon, or None for a segment no longer than 1e-9 |
| RouteSegment.SegmentSkipped | qiskit_metal/qlibrary/user_components/qroutemod.py:352-353 | no polygon exactly when the segment is no longer than 1e-9 |
| RouteSegment.SegmentBoundaryLayout | qiskit_metal/qlibrary/user_components/qroutemod.py:362-373 | the boundary has 2n vertices: the left side in order, then the right side reversed |
| RouteSegment.SidesSymmetric | qiskit_metal/qlibrary/user_components/qroutemod.py:361-368 | every left and right sample lie symmetrically about the centre sample, half the profile width away along the normal |
| RouteSegment.CentreEnds | qiskit_metal/qlibrary/user_components/qroutemod.py:363-367 | the centre samples start at the first point and end at the second |
| RouteSegment.WidthArgsIncrease | qiskit_metal/qlibrary/user_components/qroutemod.py:355-365 | the profile is evaluated at arclengths rising strictly from `beg_coord` to `beg_coord + length`, at most `step` apart |
| RouteFillet.FilletFeasibleCases | qiskit_metal/qlibrary/user_components/qroutemod.py:257-280 | a corner is refused for each of the three reasons `_calc_fillet` checks; a tangent distance equal to the shorter side is accepted |
| RouteFillet.FilletArc | qiskit_metal/qlibrary/user_components/qroutemod.py:239-338 | the corner is refused exactly when `_calc_fillet` rejects it; an accepted corner with fewer than two samples is the two-point ring `draw.Polygon` raises on; otherwise the arc has exactly `points` samples |
| RouteFillet.CalcFillet | qiskit_metal/qlibrary/user_components/qroutemod.py:239-338 | the method returns the specified outcome: a refused corner, the two-point ring that raises at line 337, or the arc |
| RouteFillet.SampleFillet | qiskit_metal/qlibrary/user_components/qroutemod.py:311-338 | the sampling loop builds the specified arc polygon, path and exit arclength |
| RouteFillet.SampleFirst | qiskit_metal/qlibrary/user_components/qroutemod.py:312-321 | the lead-in from the last path point gives the first sample and its arclength |
| RouteFillet.DrawNext | qiskit_metal/qlibrary/user_components/qroutemod.py:323-334 | one loop pass extends the sampled prefix by sample k |
| RouteFillet.BuildFrom | qiskit_metal/qlibrary/user_components/qroutemod.py:335-338 | the finished samples assemble into the arc's polygon and path |
| RouteFillet.CoordStep | qiskit_metal/qlibrary/user_components/qroutemod.py:328 | each sample advances the arclength by radius times the angle step |
| RouteFillet.SampleAt | qiskit_metal/qlibrary/user_components/qroutemod.py:324-330 | the drawn sample is the one at angle θk and arclength k steps on |
| RouteFillet.ArcArclength | qiskit_metal/qlibrary/user_components/qroutemod.py:312-328 | the arc has `points` samples starting at the first tangent point; the exit arclength is the entry arclength plus radius·\|Δθ\|, and the last sample is at θend |
| RouteFillet.ArcCoordsMonotone | qiskit_metal/qlibrary/user_components/qroutemod.py:315-328 | for a non-negative radius the arclengths at which the profile is evaluated never decrease |
| RouteFillet.ArcSidesSymmetric | qiskit_metal/qlibrary/user_components/qroutemod.py:326-330 | the arc's left and right samples lie symmetrically about its centre line |
| RouteFillet.ArcBoundaryLayout | qiskit_metal/qlibrary/user_components/qroutemod.py:335-337 | the arc polygon has 2·count vertices: left side in order, then right side reversed |
| RoutePath.Route.ArcPoints | qiskit_metal/qlibrary/user_components/qroutemod.py:219 | `int(pi/2*fillet/step)` is never negative for a valid route |
| RoutePath.ZeroFilletPolys | qiskit_metal/qlibrary/user_components/qroutemod.py:193-198 | with zero fillet one segment is drawn per consecutive pair of points |
| RoutePath.CornerStep | qiskit_metal/qlibrary/user_components/qroutemod.py:209-232 | a corner raises (the short-arc ring) exactly when `_calc_fillet` accepts it and the arcs have fewer than two samples; otherwise it strictly extends both the new path and the polygon list, keeping what was there |
| RoutePath.WalkFrom | qiskit_metal/qlibrary/user_components/qroutemod.py:209-232 | the corner walk can only raise the short-arc ring; when it succeeds it only appends to the path and the polygon list |
| RoutePath.WalkFails | qiskit_metal/qlibrary/user_components/qroutemod.py:209-232 | the walk from corner i raises exactly when the arcs are short and some corner from i on is accepted by `_calc_fillet` |
| RoutePath.FilletPath | qiskit_metal/qlibrary/user_components/qroutemod.py:183-237 | zero fillet or two points give the waypoints themselves as the path; the only error is the short-arc ring, for a non-zero fillet and at least one corner |
| RoutePath.FilletPathFails | qiskit_metal/qlibrary/user_components/qroutemod.py:193-237 | `fillet_path_and_draw` raises exactly when the fillet is non-zero, there is a corner, the arcs are short and some corner is accepted |
| RoutePath.FailsForAnyProfile | qiskit_metal/qlibrary/user_components/qroutemod.py:217-219 | whether the route raises does not depend on the width profile |
| RoutePath.ShortArcsWhen | qiskit_metal/qlibrary/user_components/qroutemod.py:219 | the arc sample count is below 2 exactly when `pi*fillet < 4*step` |
| RoutePath.FilletPathAndDraw | qiskit_metal/qlibrary/user_components/qroutemod.py:183-237 | the method returns the specified filleted route or the error it raises |
| RoutePath.DrawStraight | qiskit_metal/qlibrary/user_components/qroutemod.py:193-198 | the zero-fillet loop draws the specified segments, at the running arclength |
| RoutePath.WalkCorners | qiskit_metal/qlibrary/user_components/qroutemod.py:202-232 | the corner loop produces the specified walk |
| RoutePath.DrawCorner | qiskit_metal/qlibrary/user_components/qroutemod.py:211-232 | one corner, filleted or drawn sharp, is the specified corner step |
| RoutePath.DrawSharp | qiskit_metal/qlibrary/user_components/qroutemod.py:211-215 | a corner drawn straight through is the specified sharp step |
| RoutePath.CornerStepAdvances | qiskit_metal/qlibrary/user_components/qroutemod.py:213-230 | the running arclength never decreases at a corner that is drawn |
| RoutePath.WalkCoordMonotone | qiskit_metal/qlibrary/user_components/qroutemod.py:208-232 | the running arclength never decreases over the whole walk |
| RoutePath.FilletPathEnds | qiskit_metal/qlibrary/user_components/qroutemod.py:198-236 | a filleted path that is drawn runs from the first waypoint to the last |
| RoutePath.WalkAllSharp | qiskit_metal/qlibrary/user_components/qroutemod.py:208-232 | when every corner is drawn sharp, the walk is the straight walk through the waypoints |
| RoutePath.SharpStep | qiskit_metal/qlibrary/user_components/qroutemod.py:211-215 | a sharp corner appends the corner and the straight segment to it |
| RoutePath.StaysSharp | qiskit_metal/qlibrary/user_components/qroutemod.py:208-232 | all-sharp corners after i imply all-sharp corners after i+1 |
| RoutePath.StraightExtends | qiskit_metal/qlibrary/user_components/qroutemod.py:194-197 | the zero-fillet drawing of one more point appends one segment |
| RoutePath.ExtendPrefix | qiskit_metal/qlibrary/user_components/qroutemod.py:194-197 | the zero-fillet drawing of a prefix is a prefix of the drawing |
| RoutePath.AllSharpIsStraight | qiskit_metal/qlibrary/user_components/qroutemod.py:193-237 | when no corner can be filleted, the filleted route draws exactly the zero-fillet segments through the waypoints |
| RoutePath.FinishStraight | qiskit_metal/qlibrary/user_components/qroutemod.py:233-236 | the closing segment to the last waypoint completes the straight drawing |
| RoutePath.WalkFromAsWritten | qiskit_metal/qlibrary/user_components/qroutemod.py:209-220 | the corner walk as written, where a refused corner raises at the unpacking |
| RoutePath.CornerStepAsWritten | qiskit_metal/qlibrary/user_components/qroutemod.py:209-232 | a corner as written raises exactly when it is refused (the unpacking of `False`) or accepted with short arcs |
| RoutePath.FilletPathAsWritten | qiskit_metal/qlibrary/user_components/qroutemod.py:183-237 | as written, zero fillet or two points give the waypoints as the path, and a failure needs a non-zero fillet and a corner |
| RoutePath.WalkAsWrittenRaises | qiskit_metal/qlibrary/user_components/qroutemod.py:217-220 | the walk as written fails exactly when some later corner not excluded in advance is refused, and otherwise agrees with the corrected walk |
| RoutePath.FilletPathAsWrittenRaises | qiskit_metal/qlibrary/user_components/qroutemod.py:193-237 | `fillet_path_and_draw` as written fails exactly when the fillet is non-zero, there are more than two points, and some corner is refused or accepted with short arcs; it fails whenever the corrected route fails, and otherwise equals it |
| RoutePath.CollinearCornerRaises | qiskit_metal/qlibrary/user_components/qroutemod.py:217-219 | three collinear waypoints with a non-zero fillet raise the unpacking TypeError as written, while the corrected route is the waypoints themselves |
| RoutePath.ShortArcCornerRaises | qiskit_metal/qlibrary/user_components/qroutemod.py:217-219 | a right-angle corner with fillet 1 and step 2 gets 0 arc samples, and the route raises the short-arc ring both as written and corrected |
| RouteElements.Tag | qiskit_metal/qlibrary/user_components/qroutemod.py:415-417 | `.upper().strip()` of a route type is never longer than the type |
| RouteElements.ModRoute.Modlines | qiskit_metal/qlibrary/user_components/qroutemod.py:406-407 | one drawing per width profile |
| RouteElements.ModRoute.Selections | qiskit_metal/qlibrary/user_components/qroutemod.py:408-417 | one layer and type selection, or error, per width profile |
| RouteElements.MakeElements | qiskit_metal/qlibrary/user_components/qroutemod.py:377-459 | the rows the method adds and the error it ends with are those of the specified profile loop |
| RouteElements.ProfileLoop | qiskit_metal/qlibrary/user_components/qroutemod.py:406-459 | the loop over the width profiles reaches the specified state |
| RouteElements.ProcessProfile | qiskit_metal/qlibrary/user_components/qroutemod.py:406-459 | one loop pass takes the state for profile k to the state for profile k+1 |
| RouteElements.DrawModline | qiskit_metal/qlibrary/user_components/qroutemod.py:407 | the drawing of profile k, or the error it raises, is the filleted route under that profile |
| RouteElements.ModlinesDrawn | qiskit_metal/qlibrary/user_components/qroutemod.py:406-407 | the drawings (or errors) of the profiles are the modlines |
| RouteElements.ModlineAt | qiskit_metal/qlibrary/user_components/qroutemod.py:406-407 | modline k is the route drawn, or the error raised, with profile k |
| RouteElements.ModlineFailsAlike | qiskit_metal/qlibrary/user_components/qroutemod.py:406-407 | every profile's drawing raises exactly when the route does, with the short-arc ring |
| RouteElements.UndrawableRouteRaises | qiskit_metal/qlibrary/user_components/qroutemod.py:406-409 | a route that cannot be drawn raises in the first profile, with no geometry added and the inner-buffer cache unbound |
| RouteElements.SelectionAt | qiskit_metal/qlibrary/user_components/qroutemod.py:408-417 | selection k is the layer and type chosen for profile k |
| RouteElements.SelectProfile | qiskit_metal/qlibrary/user_components/qroutemod.py:408-417 | the method picks the specified layer and type, or raises when a list is too short |
| RouteElements.Dispatch | qiskit_metal/qlibrary/user_components/qroutemod.py:418-456 | the type dispatch yields the specified action or exception |
| RouteElements.NextState | qiskit_metal/qlibrary/user_components/qroutemod.py:406-459 | the state after profile k+1 is one dispatch step from the state after k |
| RouteElements.Stopped | qiskit_metal/qlibrary/user_components/qroutemod.py:440-456 | after an exception, processing further profiles changes nothing |
| RouteElements.ErrorSticks | qiskit_metal/qlibrary/user_components/qroutemod.py:440-456 | once the loop has raised, the final result carries that error and no later rows |
| RouteElements.ActionRole | qiskit_metal/qlibrary/user_components/qroutemod.py:418-456 | a profile's drawing is cached exactly when its type is `GND_BUFFER_INNER`, and the cache then holds that drawing |
| RouteElements.RoleTagsLong | qiskit_metal/qlibrary/user_components/qroutemod.py:419-445 | only the five recognised type tags select a branch of the dispatch, and each is at least three characters long |
| RouteElements.ProfileRoles | qiskit_metal/qlibrary/user_components/qroutemod.py:418-459 | `ROUTE` adds the drawing (plus the overlap pad), `GAP` subtracts it, `CPW` adds and then subtracts and raises beyond two profiles, an unknown type raises |
| RouteElements.LatestInner | qiskit_metal/qlibrary/user_components/qroutemod.py:442-452 | the inner-buffer cache is bound exactly when an inner profile came earlier, and holds the latest inner drawing |
| RouteElements.LatestBefore | qiskit_metal/qlibrary/user_components/qroutemod.py:442-452 | the latest inner profile before k is found by searching back from k |
| RouteElements.OuterUsesLatestInner | qiskit_metal/qlibrary/user_components/qroutemod.py:445-452 | an outer buffer subtracts the drawing of the latest inner buffer before it |
| RouteElements.OuterWithoutInnerRaises | qiskit_metal/qlibrary/user_components/qroutemod.py:446-451 | an outer buffer with no inner buffer before it raises the missing-inner-buffer exception |
| RouteElements.ScalarRoleWithLayerList | qiskit_metal/qlibrary/user_components/qroutemod.py:409-417 | a string type with a layer list is indexed one character at a time, which matches no type tag, so `make_elements` raises before adding any geometry |
| RouteElements.EmissionCount | qiskit_metal/qlibrary/user_components/qroutemod.py:418-459 | when no exception is raised, the rows added for k profiles number k minus the inner-buffer profiles |
| RouteElements.OverlapPadTouchesPin | qiskit_metal/qlibrary/user_components/qroutemod.py:424-430 | the overlap pad's edge lies on the start pin's middle, and the pad extends along the pin normal |
| RouteElements.OverlapPad | qiskit_metal/qlibrary/user_components/qroutemod.py:422-430 | for each axis-aligned unit pin normal, the pad's inner edge lies on the pin middle and its centre on the pin axis; it is `height` long along the normal and `w_func(0)` wide across it |
| JjWithPads.DrawSides | qiskit_metal/qlibrary/user_components/jj_with_pads_v2.py:15-23 | the loop builds both specified sides: a cut pair per `range(cuts_number)` step, then the bulk |
| JjWithPads.ProximityCorrectedJj | qiskit_metal/qlibrary/user_components/jj_with_pads_v2.py:9-24 | `proximity_corrected_jj` returns the specified centred junction |
| JjWithPads.ShiftedProximityJj | qiskit_metal/qlibrary/user_components/circuFlatV2_1.py:11-26 | the circuFlat variant returns the specified shifted junction |
| JjWithPads.SideStep | qiskit_metal/qlibrary/user_components/jj_with_pads_v2.py:15-20 | one loop pass appends the upper and lower cut of pair i |
| JjWithPads.SideEnd | qiskit_metal/qlibrary/user_components/jj_with_pads_v2.py:21-23 | the bulk closes each side |
| JjWithPads.SideLayout | qiskit_metal/qlibrary/user_components/jj_with_pads_v2.py:15-23 | a side has 2·cuts+1 rectangles in one column, cuts `cut_size` high at ±CutY(i), and the bulk `width - 2*cut_size*cuts_number` high at `y_offset` |
| JjWithPads.CentredJj | qiskit_metal/qlibrary/user_components/jj_with_pads_v2.py:9-24 | both sides have 2·cuts+1 rectangles, the right side is the left mirrored in x = 0, and its centre is `x_offset + span` |
| JjWithPads.ShiftedJj | qiskit_metal/qlibrary/user_components/circuFlatV2_1.py:11-26 | both sides have 2·cuts+1 rectangles, alike except in x, centred symmetrically about `x_offset` and `2*span` apart |
| JjWithPads.CutPairsMirrored | qiskit_metal/qlibrary/user_components/jj_with_pads_v2.py:17-20 | the two rectangles of a cut pair mirror each other in y = 0 |
| JjWithPads.CutsStackFromTop | qiskit_metal/qlibrary/user_components/jj_with_pads_v2.py:16-21 | the upper cuts and the bulk stack from the junction's top edge down without gap or overlap |
| JjWithPads.CentredJjMirrored | qiskit_metal/qlibrary/user_components/jj_with_pads_v2.py:14-23 | the right side is the left side mirrored in x = 0, whatever `x_offset` is |
| JjWithPads.ShiftedJjMirrored | qiskit_metal/qlibrary/user_components/circuFlatV2_1.py:16-25 | the sides mirror each other in x = `x_offset`, `2*span` apart |
| JjWithPads.SwappedLowerCuts | qiskit_metal/qlibrary/user_components/circuFlatV2_1.py:18-22 | the junction at `-y_offset` puts its lower cuts where those of the junction at `y_offset` belong |
| JjWithPads.AddCuts | qiskit_metal/qlibrary/user_components/jj_with_pads_v2.py:173-193 | the cut loop adds the cut pairs of every junction, pair by pair, then the bulks |
| JjWithPads.AddPair | qiskit_metal/qlibrary/user_components/jj_with_pads_v2.py:173-183 | one loop pass adds cut pair i of each junction, as the union of its two rectangles |
| JjWithPads.AddBulks | qiskit_metal/qlibrary/user_components/jj_with_pads_v2.py:184-193 | the bulk rows, one per junction, each the last rectangle |
| JjWithPads.CutRowAt | qiskit_metal/qlibrary/user_components/jj_with_pads_v2.py:173-183 | row `i*junctions + j` is cut pair i of junction j |
| JjWithPads.DivSplit | qiskit_metal/qlibrary/user_components/jj_with_pads_v2.py:173 | a row index splits into a pair number and a junction number |
| JjWithPads.CutLayers | qiskit_metal/qlibrary/user_components/jj_with_pads_v2.py:173-193 | every cut row is on dose layer `first + cuts - pair` above the bulk layer, every bulk on `jj_first_layer`, and nothing subtracts |
| JjWithPads.NoSubtract | qiskit_metal/qlibrary/user_components/jj_with_pads_v2.py:175-180 | no cut row subtracts |
| JjWithPads.WireReachesBridgeGap | qiskit_metal/qlibrary/user_components/jj_with_pads_v2.py:67-99 | the left wire runs from the pad edge at `-pads_distance/2` to `jj_to_bridge_length` short of the bridge, the right wire is its mirror image, and both are `jj_lead_width` high on the axis |
| JjWithPads.JunctionMeetsBridge | qiskit_metal/qlibrary/user_components/jj_with_pads_v2.py:137 | each junction rectangle starts at the bridge edge and reaches `jj_fine_length + alignment_tol` beyond it |
| JjWithPads.JunctionReachesWire | qiskit_metal/qlibrary/user_components/jj_with_pads_v2.py:67-137 | a junction reaches into the wire on its side exactly when `jj_fine_length + alignment_tol` exceeds `jj_to_bridge_length`, by their difference |
| JjWithPads.PadJunctions | qiskit_metal/qlibrary/user_components/jj_with_pads_v2.py:158-159 | the two junctions have the full rectangle lists the cut loop indexes |
| JjWithPads.MakeJunction | qiskit_metal/qlibrary/user_components/jj_with_pads_v2.py:137-193 | the junction part of `make` adds the specified cut geometry |
| JjWithPads.PadJunctionLayers | qiskit_metal/qlibrary/user_components/jj_with_pads_v2.py:173-193 | rows 2i and 2i+1 are `jj_cut_L_i` and `jj_cut_R_i` on layer `first + cuts - i`, and the last two are the bulks on `jj_first_layer` |
| JjChain.Translate | qiskit_metal/qlibrary/user_components/jj_chain_with_pads_v2.py:162-165 | translating rectangles moves each centre by dx and changes nothing else |
| JjChain.TranslateSide | qiskit_metal/qlibrary/user_components/jj_chain_with_pads_v2.py:162-165 | a translated side is the side drawn dx further along |
| JjChain.ShiftRect | qiskit_metal/qlibrary/user_components/jj_chain_with_pads_v2.py:162-165 | a translated rectangle of a side is that rectangle drawn dx further along |
| JjChain.CellJunctions | qiskit_metal/qlibrary/user_components/jj_chain_with_pads_v2.py:159-165 | a cell's two junctions have the full rectangle lists |
| JjChain.CellIsShiftedJj | qiskit_metal/qlibrary/user_components/jj_chain_with_pads_v2.py:159-165 | a cell's junction drawn at the origin and translated to `offset_x` is the circuFlat shifted junction at `x_offset = offset_x` |
| JjChain.TranslatedLeft | qiskit_metal/qlibrary/user_components/jj_chain_with_pads_v2.py:162-163 | the translated left side is the shifted junction's left side |
| JjChain.TranslatedRight | qiskit_metal/qlibrary/user_components/jj_chain_with_pads_v2.py:164-165 | the translated right side is the shifted junction's right side |
| JjChain.SidesAt | qiskit_metal/qlibrary/user_components/jj_chain_with_pads_v2.py:159-160 | where the centred and the shifted variants draw their sides |
| JjChain.MakeCell | qiskit_metal/qlibrary/user_components/jj_chain_with_pads_v2.py:63-193 | `make_cell` adds the cut geometry of its translated junction, with names that do not carry the affix |
| JjChain.HalfBefore | qiskit_metal/qlibrary/user_components/jj_chain_with_pads_v2.py:262-266 | `d*(k - 1/2)` is half a pitch before k pitches |
| JjChain.HalfStepBefore | qiskit_metal/qlibrary/user_components/jj_chain_with_pads_v2.py:262-266 | the lead position computed by the method is half a pitch before k pitches |
| JjChain.Cells | qiskit_metal/qlibrary/user_components/jj_chain_with_pads_v2.py:256-258 | cell i is at `i*jj_to_jj_dist` with affix `str(i)` |
| JjChain.DrawCells | qiskit_metal/qlibrary/user_components/jj_chain_with_pads_v2.py:256-258 | the cell loop places the specified cells and adds each one's cut rows |
| JjChain.SideLeads | qiskit_metal/qlibrary/user_components/jj_chain_with_pads_v2.py:265-267 | one side lead per `i_side` in `range(1, m)` |
| JjChain.ChainLayout | qiskit_metal/qlibrary/user_components/jj_chain_with_pads_v2.py:253-267 | `make` fails only for a zero period, with ZeroDivisionError; a chain has one cell per `range(n_jj)` step and starts with the two outer leads |
| JjChain.DrawnBeforeRaise | qiskit_metal/qlibrary/user_components/jj_chain_with_pads_v2.py:256-265 | a successful `make` leaves its layout in the design; a failing one has drawn every cell and both outer leads and nothing more |
| JjChain.DrawSideLeads | qiskit_metal/qlibrary/user_components/jj_chain_with_pads_v2.py:265-267 | the side-lead loop adds the specified leads |
| JjChain.MakeChain | qiskit_metal/qlibrary/user_components/jj_chain_with_pads_v2.py:253-267 | `make` returns the specified chain or ZeroDivisionError, and what it has drawn by then: every cell and both outer leads, plus the side leads when it succeeds |
| JjChain.ChainFailsOnZeroPeriod | qiskit_metal/qlibrary/user_components/jj_chain_with_pads_v2.py:265 | `make` raises exactly when `lateral_pads_period` is 0, and then it raises ZeroDivisionError |
| JjChain.OuterLeadsAtEnds | qiskit_metal/qlibrary/user_components/jj_chain_with_pads_v2.py:256-262 | the outer leads sit half a pitch beyond the first and last cells, rotated -90 and 90 degrees |
| JjChain.FewSides | qiskit_metal/qlibrary/user_components/jj_chain_with_pads_v2.py:265 | floor division gives at most 1 when n < 2p for p > 0, and at most 0 for p < 0 and n ≥ 0 |
| JjChain.SideLeadCount | qiskit_metal/qlibrary/user_components/jj_chain_with_pads_v2.py:261-267 | there are `n_jj // period - 1` side leads (none for short chains or a negative period) besides the two outer leads |
| JjChain.SideCellInChain | qiskit_metal/qlibrary/user_components/jj_chain_with_pads_v2.py:265-266 | the cell a side lead marks has a predecessor and lies inside the chain |
| JjChain.SideLeadsBetweenCells | qiskit_metal/qlibrary/user_components/jj_chain_with_pads_v2.py:257-267 | side lead t sits exactly between cells `k-1` and `k` of the chain, half a lead width below the axis, with affix `str(t+1)` |
| CircuFlat.CornerOffsetRect | qiskit_metal/qlibrary/user_components/circuFlatV2_1.py:5-6 | the rectangle has one corner at `(xoff, yoff)` and the opposite corner at `(xoff + w, yoff + h)` |
| CircuFlat.CornerOffsetRoundTrip | qiskit_metal/qlibrary/user_components/circuFlatV2_1.py:5-6 | every rectangle is the corner-anchored rectangle at its own corner |
| CircuFlat.CellJunctions | qiskit_metal/qlibrary/user_components/circuFlatV2_1.py:596-610 | eight complete junctions tagged TL, CTL, BL, CBL, CTR, TR, CBR, BR in that order |
| CircuFlat.DrawCellJunctions | qiskit_metal/qlibrary/user_components/circuFlatV2_1.py:596-610 | the four `proximity_corrected_jj` calls give the specified junctions |
| CircuFlat.CellJjColumns | qiskit_metal/qlibrary/user_components/circuFlatV2_1.py:599-610 | a junction at `(x, y)` has its sides at `x - span` and `x + span` |
| CircuFlat.CellJunctionColumns | qiskit_metal/qlibrary/user_components/circuFlatV2_1.py:599-610 | the bridges sit at `cell_length/2` and `3*cell_length/2` with one side on either hand, and the bottom-wire junctions are in the top-wire columns |
| CircuFlat.LowerCutsSwapped | qiskit_metal/qlibrary/user_components/circuFlatV2_1.py:18-22 | each bottom-wire junction's lower cuts lie where its top-wire partner's lower cuts belong |
| CircuFlat.BridgeCutsSwapped | qiskit_metal/qlibrary/user_components/circuFlatV2_1.py:599-610 | the same, for the two junctions of one bridge |
| CircuFlat.MakeCellCuts | qiskit_metal/qlibrary/user_components/circuFlatV2_1.py:826-906 | the cut rows of `make_cell`, with the affix appended when there is one |
| CircuFlat.CellCuts | qiskit_metal/qlibrary/user_components/circuFlatV2_1.py:826-906 | the cell has 8 rows per cut pair plus 8 bulks, and the last 8 rows are the junctions' bulks with the suffix |
| CircuFlat.CellCutsAsWritten | qiskit_metal/qlibrary/user_components/circuFlatV2_1.py:826-906 | as written the cut rows raise TypeError exactly when the affix is None, and otherwise are the corrected rows |
| CircuFlat.DefaultCellRaises | qiskit_metal/qlibrary/user_components/circuFlatV2_1.py:827-947 | the default cell, whose affix is None, raises TypeError as written; the corrected cell has affix-free names |
| CircuFlat.CellCutsAgree | qiskit_metal/qlibrary/user_components/circuFlatV2_1.py:826-906 | with an affix, the corrected rows are the rows as written |
| CircuFlat.AffixAppended | qiskit_metal/qlibrary/user_components/circuFlatV2_1.py:714-750 | an affix changes only the row names, each of which gets the affix at its end |
| CircuFlat.SuffixedRows | qiskit_metal/qlibrary/user_components/circuFlatV2_1.py:826-906 | for any junctions, suffixing changes only the row names |
| CircuFlat.SuffixedCutRow | qiskit_metal/qlibrary/user_components/circuFlatV2_1.py:826-866 | a suffixed cut row is the plain row with the suffix on its name |
| CircuFlat.SuffixedBulk | qiskit_metal/qlibrary/user_components/circuFlatV2_1.py:867-906 | a suffixed bulk row is the plain row with the suffix on its name |
| CircuFlat.CellCutRow | qiskit_metal/qlibrary/user_components/circuFlatV2_1.py:826-866 | row `8i + j` is `jj_cut_<tag j>_<i>` plus the suffix, on layer `first + cuts - i` |
| CircuFlat.CellBulkRow | qiskit_metal/qlibrary/user_components/circuFlatV2_1.py:867-906 | the last eight rows are `jj_cut_<tag>_bulk` plus the suffix, on `jj_first_layer` |
| CircuFlat.RowOfJunction | qiskit_metal/qlibrary/user_components/circuFlatV2_1.py:826-866 | row `i*junctions + j` is named for junction j and pair i, on layer `first + cuts - i` |
| CircuFlat.BulkOfJunction | qiskit_metal/qlibrary/user_components/circuFlatV2_1.py:867-906 | the j-th of the last rows is junction j's bulk, on `jj_first_layer` |
| CircuFlat.CellCutLayers | qiskit_metal/qlibrary/user_components/circuFlatV2_1.py:826-906 | the cut rows lie on dose layers above `jj_first_layer` and the bulks on it, and nothing subtracts |
| CircuFlat.EndCells | qiskit_metal/qlibrary/user_components/circuFlatV2_1.py:971-977 | the first cell is rounded left, the last right unless it is also the first, and the others not at all |
| CircuFlat.LineCells | qiskit_metal/qlibrary/user_components/circuFlatV2_1.py:971-980 | cell i is i steps along the line, with affix `<name>_c_<i>` and its end rounding |
| CircuFlat.MakeLine | qiskit_metal/qlibrary/user_components/circuFlatV2_1.py:965-980 | the line loop places the specified cells and adds each one's cut rows with its affix |
| CircuFlat.CellsOneStepApart | qiskit_metal/qlibrary/user_components/circuFlatV2_1.py:978-980 | the first cell is at the origin and consecutive cells are one step of `2*cell_length` apart |
| CircuFlat.AffixesDistinct | qiskit_metal/qlibrary/user_components/circuFlatV2_1.py:980 | no two cells get the same affix |
| PinPad.PadRects | qiskit_metal/qlibrary/user_components/pin_pad.py:34-38 | rectangle k is `width[k]` by `height[k]`, centred at `width[k]/2 - width[0]/2` |
| PinPad.PadElements | qiskit_metal/qlibrary/user_components/pin_pad.py:43-48 | one `rectangle` row per (rectangle, layer, subtract) triple, in order |
| PinPad.MakePad | qiskit_metal/qlibrary/user_components/pin_pad.py:21-50 | `make` returns the specified pad or the exception it raises |
| PinPad.PadLayout | qiskit_metal/qlibrary/user_components/pin_pad.py:21-50 | a pad exists only for equal-length non-empty option lists; it has one row per width, and the pin rectangle is the first rectangle, centred on the origin |
| PinPad.PadFailures | qiskit_metal/qlibrary/user_components/pin_pad.py:29-50 | mixed-arguments exception exactly for lists of differing lengths; IndexError exactly for equal-length empty lists; success otherwise |
| PinPad.ScalarPad | qiskit_metal/qlibrary/user_components/pin_pad.py:21-38 | all-scalar options give one rectangle centred on the origin |
| PinPad.PadShape | qiskit_metal/qlibrary/user_components/pin_pad.py:34-50 | every rectangle's left edge is at `-width[0]/2`, and the pin is taken from the first, origin-centred rectangle |
| LineTee.ToThree | qiskit_metal/qlibrary/user_components/line_tee_multimat.py:80-85 | one value is used three times, `[a, b]` becomes `[a, a, b]`, and other lists are kept |
| LineTee.ToThreeKeepsEnds | qiskit_metal/qlibrary/user_components/line_tee_multimat.py:80-85 | a non-empty list becomes at least three long, keeps its first and last value, and uses only its own values |
| LineTee.NormaliseToThree | qiskit_metal/qlibrary/user_components/line_tee_multimat.py:80-85 | the step-by-step rebinding gives the normalised list |
| LineTee.MakeTee | qiskit_metal/qlibrary/user_components/line_tee_multimat.py:80-149 | `make`, with the impedance normalised like the layers, returns the specified six rows or IndexError |
| LineTee.TeeLayout | qiskit_metal/qlibrary/user_components/line_tee_multimat.py:80-149 | the only error is IndexError; the six rows are `prime_cpw`, `prime_cpw_sub`, `second_cpw`, `pad_T`, `second_cpw_sub` and `pocket`, in that order |
| LineTee.TeeLayoutAsWritten | qiskit_metal/qlibrary/user_components/line_tee_multimat.py:80-149 | as written the only error is IndexError, and success needs at least three impedance values and a non-empty layer list |
| LineTee.ShortImpedanceRaises | qiskit_metal/qlibrary/user_components/line_tee_multimat.py:86-138 | as written, a scalar impedance (the default `False` included) or a list of one or two values always raises IndexError |
| LineTee.TeeSucceeds | qiskit_metal/qlibrary/user_components/line_tee_multimat.py:80-149 | corrected, `make` succeeds exactly when both options are non-empty, and agrees with the code as written wherever that succeeds |
| LineTee.TeeRowLayers | qiskit_metal/qlibrary/user_components/line_tee_multimat.py:127-149 | every subtracting row is on the first layer, the primary trace on the second, the secondary trace and pad on the third, each with its impedance |
| LineTee.PrimeLineCentred | qiskit_metal/qlibrary/user_components/line_tee_multimat.py:91-134 | the primary line is `2*t_length` long and centred on the origin, and its cut is `2*prime_gap` wider |
| LineTee.OpenTerminationExtends | qiskit_metal/qlibrary/user_components/line_tee_multimat.py:101-108 | an open termination moves only the end of the secondary cut, `2*second_gap` further down |
| QrouteMm.MakeElements | qiskit_metal/qlibrary/user_components/qRouteMultiMat/qroute_mm.py:21-42 | `make_elements` returns the specified rows or IndexError |
| QrouteMm.MmRows | qiskit_metal/qlibrary/user_components/qRouteMultiMat/qroute_mm.py:21-42 | the only error is IndexError; otherwise one or two rows, the trace first, each on the route's points with the route's fillet |
| QrouteMm.MmFailsOnEmptyLayers | qiskit_metal/qlibrary/user_components/qRouteMultiMat/qroute_mm.py:21-34 | it raises exactly for an empty layer list; one layer puts the trace and the cut on the same layer |
| QrouteMm.MmTraceAndCut | qiskit_metal/qlibrary/user_components/qRouteMultiMat/qroute_mm.py:31-42 | the trace comes first, on the second layer, `trace_width` wide; a second row exists exactly for a CPW, the cut on the first layer, subtracting, `2*trace_gap` wider |

## Left out

- Shapely geometry is not evaluated. Polygons, rectangles, unions, differences, buffers
  (`round_polygon`) and line strings are opaque terms, so nothing is proved about areas
  or about the outline of a union.
- numpy `norm`, `arccos`, `tan`, `cos` and `sin`, and the fillet-frame block
  (`qroutemod.py:283-309`), are supplied as a `Numerics` value. Real arithmetic has no
  closed-form trigonometry, so only the soundness facts the proofs need are assumed of
  them.
- Rotation by `orientation` and translation by `pos_x`, `pos_y` are not applied. Every
  component is described in its own frame.
  - For the same reason, the model does not capture that `circuFlatV2_1.py:634` rotates
    the TL junction about `(0, 0)` while the other seven junctions (636-649) are rotated
    about the default origin of the geometry library.
- `bad_fillet_idxs` is not part of this model. The set of corners it excludes is an
  input of the route.
- `add_qgeometry` is modelled as returning rows; the pandas tables it writes to are not
  modelled. `add_pin`, pin coordinates (`pin_pad.py:50` beyond which rectangle is used),
  `_actual_length` and `length_excess_corner_rounding` are left out because they belong
  to the framework.
- The length warning of `qroutemod.py:395-398` is a log message with no effect on the
  geometry.
- The capacitance printout of `circuFlatV2_1.py` only prints.
- The pads, leads, wires, underetch, dielectric patches, ground pockets and capacitor
  polygons of every component are left out. They are fixed polygon literals built from
  the options; the model covers the rules that place and name the junction cuts, cells
  and leads. The two wire rectangles of the `JJ_with_pads` pads are the one exception
  (`JjWithPads.LeftWire`, `JjWithPads.RightWire`). Their T-shaped cut-outs and their union
  with the pads are not modelled.
- RouteElements.Tag: upper-cases ASCII letters only and strips ASCII whitespace only,
  because Dafny strings have no Unicode case tables. Its contract gives only the length
  bound; what the tags mean is stated by `RoleTagsLong` and `ProfileRoles`.
- A failing `Result` does not carry the rows added before the exception. There are two
  exceptions. `RouteElements.MakeElements` keeps the rows of the earlier profiles.
  `JjChain.MakeChain` also returns what it has drawn: the cells and both outer leads.
- `make_lead` of `jj_chain_with_pads_v2.py:226-250` is modelled by its call arguments
  (position, rotation and affix). Its lead and pad rectangles are opaque polygons.
- The `circuFlatLine.make` orientation cosine and sine are inputs, as above.
- Routes: the model assumes at least two waypoints, a non-negative fillet and a positive
  step (`RoutePath.Route.Ok`, `RouteElements.ModRoute.Ok`). The source does not check the
  fillet or the step; lines 123 and 132 only give their defaults. With `step = 0` the
  code raises, at the division of line 219 or, for zero fillet, at the sample count of
  line 354. That error is not modelled.
- RoutePath.FilletPathAndDraw: draws a corner that `_calc_fillet` refuses straight
  through, using the fallback of `qroutemod.py:228-232`. As written, the unpacking at line
  217 raises TypeError there instead. That behaviour is modelled separately, by
  `RoutePath.FilletPathAsWritten`.
- RouteElements.MakeElements: uses the same fallback. As written, that TypeError is raised
  inside `fillet_path_and_draw` (called at line 407), before the layer and type of the
  profile are selected (lines 409-416).
- `fully_round` of `circuFlatV2_1.py` is modelled as the end rounding each cell is
  given. The rounded outlines it selects are polygons, as above.

## Findings

| source | as written | input that shows it | evidently intended | confidence | as-written member | corrected member |
|---|---|---|---|---|---|---|
| qiskit_metal/qlibrary/user_components/qroutemod.py:217-220 | `_calc_fillet` returns a bare `False` for a refused corner, but the caller unpacks three values from it | three collinear waypoints with a non-zero fillet that `bad_fillet_idxs` does not exclude: TypeError "cannot unpack non-iterable bool object" | the `fillet_pts is False` branch (228-232): draw straight through the corner | not executed | RoutePath.CollinearCornerRaises | RoutePath.AllSharpIsStraight |
| qiskit_metal/qlibrary/user_components/circuFlatV2_1.py:827-906 | every cut name is `f"jj_cut_..." + affix`, with no `None` check | `circuFlatDoubleCell.make` calls `make_cell()` with the default `affix=None`: TypeError on str + None | append the affix only when it is not None, as lines 714-750 do for the other names | not executed | CircuFlat.DefaultCellRaises | CircuFlat.AffixAppended |
| qiskit_metal/qlibrary/user_components/line_tee_multimat.py:86-89 | the impedance list is only made two long | the default `impedance=False` becomes `[False, False]`, and `impedance[2]` at line 138 raises IndexError | normalise the impedance to three values, like the layers | not executed | LineTee.ShortImpedanceRaises | LineTee.TeeSucceeds |

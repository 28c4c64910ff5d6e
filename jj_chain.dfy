/** `JJ_chain_with_pads.make` of `jj_chain_with_pads_v2.py`: `n_jj` junction cells in
    a row, a lead at each end of the row, and a side lead every `lateral_pads_period`
    cells. Positions are in the component's frame (`pos_x = pos_y = 0`). */
module JjChain {
  import opened Base
  import opened Geometry
  import opened Qgeometry
  import opened JjWithPads

  /** `draw.translate(rects, dx, 0)` on a list of rectangles. */
  function Translate(rs: seq<Rect>, dx: real): (r: seq<Rect>)
    ensures |r| == |rs|
    ensures forall k :: 0 <= k < |rs| ==> r[k] == rs[k].(cx := rs[k].cx + dx)
  {
    seq(|rs|, k requires 0 <= k < |rs| => rs[k].(cx := rs[k].cx + dx))
  }

  /** Translating a side moves its centre line and nothing else. */
  lemma TranslateSide(length: real, width: real, cutSize: real, cutsNumber: int, x: real, yOffset: real,
                      m: nat, dx: real, moved: real)
    requires m <= 2 * RangeLength(cutsNumber) + 1 && moved == x + dx
    ensures Translate(Side(length, width, cutSize, cutsNumber, x, yOffset, m), dx)
            == Side(length, width, cutSize, cutsNumber, moved, yOffset, m)
  {
    var s := Side(length, width, cutSize, cutsNumber, x, yOffset, m);
    var t := Side(length, width, cutSize, cutsNumber, moved, yOffset, m);
    forall k | 0 <= k < m
      ensures Translate(s, dx)[k] == t[k]
    {
      ShiftRect(length, width, cutSize, cutsNumber, x, yOffset, k, dx);
    }
  }

  /** Moving a rectangle of a side by `dx` gives that rectangle of the side drawn `dx`
      further along. */
  lemma ShiftRect(length: real, width: real, cutSize: real, cutsNumber: int, x: real, yOffset: real, k: int,
                  dx: real)
    requires 0 <= k <= 2 * RangeLength(cutsNumber)
    ensures var r := SideRect(length, width, cutSize, cutsNumber, x, yOffset, k);
      r.(cx := r.cx + dx) == SideRect(length, width, cutSize, cutsNumber, x + dx, yOffset, k)
  {
  }

  /** The junctions of the cell at `offset_x`: the centred junction translated there. */
  function CellJunctions(p: JjOptions, offX: real): (juncs: seq<Junction>)
    ensures Complete(juncs, p.cutsNumber)
  {
    var r := CentredJj(JjLength(p.fineLength, p.alignmentTol), p.bridgeLength, p.bridgeWidth, p.cutSize,
                       p.cutsNumber, 0.0, 0.0);
    [Junction("L", Translate(r.left, offX)), Junction("R", Translate(r.right, offX))]
  }

  /** A cell's junction, drawn at the origin and translated to `offset_x`, is the
      shifted variant of `circuFlatV2_1.py` drawn at `x_offset = offset_x`. */
  lemma CellIsShiftedJj(p: JjOptions, offX: real)
    ensures var juncs := CellJunctions(p, offX);
      var s := ShiftedJj(JjLength(p.fineLength, p.alignmentTol), p.bridgeLength, p.bridgeWidth, p.cutSize,
                         p.cutsNumber, offX, 0.0);
      juncs[0].rects == s.left && juncs[1].rects == s.right
  {
    TranslatedLeft(JjLength(p.fineLength, p.alignmentTol), p.bridgeLength, p.bridgeWidth, p.cutSize,
                   p.cutsNumber, offX);
    TranslatedRight(JjLength(p.fineLength, p.alignmentTol), p.bridgeLength, p.bridgeWidth, p.cutSize,
                    p.cutsNumber, offX);
  }

  lemma TranslatedLeft(l: real, w: real, bw: real, cs: real, cn: int, offX: real)
    ensures Translate(CentredJj(l, w, bw, cs, cn, 0.0, 0.0).left, offX) == ShiftedJj(l, w, bw, cs, cn, offX, 0.0).left
  {
    var x := HalfSpan(l, bw);
    SidesAt(l, w, bw, cs, cn, offX);
    var m := 2 * RangeLength(cn) + 1;
    var a := Side(l, w, cs, cn, -(0.0 + x), 0.0, m);
    var b := Side(l, w, cs, cn, offX - x, 0.0, m);
    assert CentredJj(l, w, bw, cs, cn, 0.0, 0.0).left == a;
    assert ShiftedJj(l, w, bw, cs, cn, offX, 0.0).left == b;
    TranslateSide(l, w, cs, cn, -(0.0 + x), 0.0, m, offX, offX - x);
  }

  lemma TranslatedRight(l: real, w: real, bw: real, cs: real, cn: int, offX: real)
    ensures Translate(CentredJj(l, w, bw, cs, cn, 0.0, 0.0).right, offX) == ShiftedJj(l, w, bw, cs, cn, offX, 0.0).right
  {
    var x := HalfSpan(l, bw);
    SidesAt(l, w, bw, cs, cn, offX);
    var m := 2 * RangeLength(cn) + 1;
    var a := Side(l, w, cs, cn, 0.0 + x, 0.0, m);
    var b := Side(l, w, cs, cn, offX + x, 0.0, m);
    assert CentredJj(l, w, bw, cs, cn, 0.0, 0.0).right == a;
    assert ShiftedJj(l, w, bw, cs, cn, offX, 0.0).right == b;
    TranslateSide(l, w, cs, cn, 0.0 + x, 0.0, m, offX, offX + x);
  }

  /** Where the sides of the two variants are drawn. */
  lemma SidesAt(l: real, w: real, bw: real, cs: real, cn: int, xo: real)
    ensures var m := 2 * RangeLength(cn) + 1;
      var x := HalfSpan(l, bw);
      && CentredJj(l, w, bw, cs, cn, 0.0, 0.0) == JjRects(Side(l, w, cs, cn, -(0.0 + x), 0.0, m), Side(l, w, cs, cn, 0.0 + x, 0.0, m))
      && ShiftedJj(l, w, bw, cs, cn, xo, 0.0) == JjRects(Side(l, w, cs, cn, xo - x, 0.0, m), Side(l, w, cs, cn, xo + x, 0.0, m))
  {
  }

  /** The cut rows `make_cell` adds; the affix it is given is not used in their names. */
  method MakeCell(p: JjOptions, offX: real) returns (els: seq<Element>)
    ensures els == CutGeometry(CellJunctions(p, offX), p.cutsNumber, p.firstLayer, "")
  {
    var jjLength := p.fineLength + p.alignmentTol;
    var left, right := ProximityCorrectedJj(jjLength, p.bridgeLength, p.bridgeWidth, p.cutSize, p.cutsNumber,
                                            0.0, 0.0);
    left := Translate(left, offX);
    right := Translate(right, offX);
    assert CellJunctions(p, offX) == [Junction("L", left), Junction("R", right)];
    els := AddCuts([Junction("L", left), Junction("R", right)], p.cutsNumber, p.firstLayer, "");
  }

  /** One `make_cell` call: its x offset and the affix `str(i_jj)` it is given. */
  datatype Cell = Cell(offX: real, affix: string)

  /** One `make_lead` call: its position, rotation in degrees and name affix. */
  datatype Lead = Lead(x: real, y: real, rotation: int, affix: string)

  /** The cells and the leads in the order `make` draws them. */
  datatype Chain = Chain(cells: seq<Cell>, leads: seq<Lead>)

  /** The options of the chain layout. */
  datatype ChainOptions = ChainOptions(jj: JjOptions, dist: real, nJj: int, period: int, leadWidth: real)

  /** `d * (k - 1/2)` is half a step before `k` steps. */
  lemma HalfBefore(d: real, k: int)
    ensures d * (k as real - 1.0 / 2.0) == Multiple(k, d) - d / 2.0
  {
    MultipleIsProduct(k, d);
  }

  /** `d * (k - 1/2)` as `make` computes it. */
  method HalfStepBefore(d: real, k: int) returns (x: real)
    ensures x == Multiple(k, d) - d / 2.0
  {
    x := d * (k as real - 1.0 / 2.0);
    HalfBefore(d, k);
  }

  /** Cell `i`, at x offset `i * jj_to_jj_dist`. */
  function CellAt(c: ChainOptions, i: nat): Cell {
    Cell(Multiple(i, c.dist), NatToString(i))
  }

  /** The first `m` cells. */
  function Cells(c: ChainOptions, m: nat): (r: seq<Cell>)
    ensures |r| == m
    ensures forall i :: 0 <= i < m ==> r[i] == CellAt(c, i)
  {
    if m == 0 then [] else Cells(c, m - 1) + [CellAt(c, m - 1)]
  }

  /** The cut rows `make_cell` adds for cell `i`. */
  function CellRows(c: ChainOptions, i: nat): seq<Element> {
    CutGeometry(CellJunctions(c.jj, Multiple(i, c.dist)), c.jj.cutsNumber, c.jj.firstLayer, "")
  }

  /** The cut rows of each of the first `m` cells. */
  predicate CellsDrawn(c: ChainOptions, m: nat, rows: seq<seq<Element>>) {
    |rows| == m && forall i {:trigger rows[i]} :: 0 <= i < m ==> rows[i] == CellRows(c, i)
  }

  /** The side lead of `i_side`, at `jj_to_jj_dist * (i_side * period - 1/2)`. */
  function SideLeadAt(c: ChainOptions, iSide: nat): Lead {
    Lead(Multiple(iSide * c.period, c.dist) - c.dist / 2.0, -c.leadWidth / 2.0, 0, NatToString(iSide))
  }

  /** The side leads for `i_side` in `range(1, m)`. */
  function SideLeads(c: ChainOptions, m: int): (r: seq<Lead>)
    ensures |r| == RangeLength(m - 1)
    ensures forall t :: 0 <= t < |r| ==> r[t] == SideLeadAt(c, t + 1)
    decreases m
  {
    if m <= 1 then [] else SideLeads(c, m - 1) + [SideLeadAt(c, m - 1)]
  }

  /** The two outer leads. */
  function OuterLeads(c: ChainOptions): seq<Lead> {
    [Lead(-c.dist / 2.0, 0.0, -90, "left"), Lead(Multiple(c.nJj, c.dist) - c.dist / 2.0, 0.0, 90, "right")]
  }

  /** What `make` builds, or the `ZeroDivisionError` of `n_jj // 0`. */
  function ChainLayout(c: ChainOptions): (r: Result<Chain, PyError>)
    ensures r.Failure? ==> r.error == ZeroDivisionError && c.period == 0
    ensures r.Success? ==>
      && |r.value.cells| == RangeLength(c.nJj) && |r.value.leads| >= 2
      && r.value.leads[..2] == OuterLeads(c)
  {
    if c.period == 0 then Failure(ZeroDivisionError)
    else
      Success(Chain(Cells(c, RangeLength(c.nJj)), OuterLeads(c) + SideLeads(c, FloorDiv(c.nJj, c.period))))
  }

  /** What `make` has added to the design when it returns or raises: every cell and
      both outer leads, and the side leads only when the period is not zero. */
  function Drawn(c: ChainOptions): Chain {
    var sides := if c.period == 0 then [] else SideLeads(c, FloorDiv(c.nJj, c.period));
    Chain(Cells(c, RangeLength(c.nJj)), OuterLeads(c) + sides)
  }

  /** A successful `make` leaves exactly its layout in the design; a failing one has
      already drawn all the cells and both outer leads, and nothing more. */
  lemma DrawnBeforeRaise(c: ChainOptions)
    ensures ChainLayout(c).Success? ==> Drawn(c) == ChainLayout(c).value
    ensures ChainLayout(c).Failure? ==> Drawn(c) == Chain(Cells(c, RangeLength(c.nJj)), OuterLeads(c))
    ensures |Drawn(c).cells| == RangeLength(c.nJj) && |Drawn(c).leads| >= 2
    ensures Drawn(c).leads[0].affix == "left" && Drawn(c).leads[1].affix == "right"
  {
    if c.period == 0 {
      assert OuterLeads(c) + [] == OuterLeads(c);
    }
  }

  /** The loop over `range(n_jj)`: each cell at `i * jj_to_jj_dist`, and the cut rows
      `make_cell` adds for it. */
  method DrawCells(c: ChainOptions) returns (cells: seq<Cell>, rows: seq<seq<Element>>)
    ensures cells == Cells(c, RangeLength(c.nJj)) && CellsDrawn(c, RangeLength(c.nJj), rows)
  {
    cells, rows := [], [];
    var i := 0;
    while i < c.nJj
      invariant 0 <= i <= RangeLength(c.nJj)
      invariant cells == Cells(c, i) && CellsDrawn(c, i, rows)
    {
      var offX := Times(i, c.dist);
      var cellRows := MakeCell(c.jj, offX);
      cells := cells + [Cell(offX, NatToString(i))];
      rows := rows + [cellRows];
      i := i + 1;
    }
  }

  /** `JJ_chain_with_pads.make`: the layout, or the error it raises, together with the
      cells and leads and the cut rows it has added by then (the cells and both outer
      leads are drawn before `n_jj // lateral_pads_period` fails). */
  method MakeChain(c: ChainOptions) returns (r: Result<Chain, PyError>, made: Chain, rows: seq<seq<Element>>)
    ensures r == ChainLayout(c)
    ensures made == Drawn(c)
    ensures CellsDrawn(c, RangeLength(c.nJj), rows)
  {
    var cells;
    cells, rows := DrawCells(c);
    var leads := [Lead(-c.dist / 2.0, 0.0, -90, "left")];
    var rightX := HalfStepBefore(c.dist, c.nJj);
    leads := leads + [Lead(rightX, 0.0, 90, "right")];
    if c.period == 0 {
      assert leads == OuterLeads(c);
      assert leads + [] == leads;
      return Failure(ZeroDivisionError), Chain(cells, leads), rows;
    }
    var sides := c.nJj / c.period;
    if c.period < 0 {
      sides := (-c.nJj) / (-c.period);
    }
    assert sides == FloorDiv(c.nJj, c.period);
    var side := DrawSideLeads(c, sides);
    assert leads == OuterLeads(c);
    leads := leads + side;
    r := Success(Chain(cells, leads));
    made := Chain(cells, leads);
  }

  /** The loop over `range(1, sides)`, one `make_lead` call per side lead. */
  method DrawSideLeads(c: ChainOptions, sides: int) returns (leads: seq<Lead>)
    ensures leads == SideLeads(c, sides)
  {
    leads := [];
    var iSide := 1;
    while iSide < sides
      invariant 1 <= iSide <= MaxInt(1, sides)
      invariant leads == SideLeads(c, iSide)
    {
      var x := HalfStepBefore(c.dist, iSide * c.period);
      leads := leads + [Lead(x, -c.leadWidth / 2.0, 0, NatToString(iSide))];
      assert leads == SideLeads(c, iSide + 1);
      iSide := iSide + 1;
    }
  }

  /** `make` raises exactly when `lateral_pads_period` is zero. */
  lemma ChainFailsOnZeroPeriod(c: ChainOptions)
    ensures ChainLayout(c).Failure? <==> c.period == 0
    ensures ChainLayout(c).Failure? ==> ChainLayout(c).error == ZeroDivisionError
  {
  }

  /** With at least one cell, the outer leads sit half a cell pitch beyond the first
      and the last cell, on the row's axis, rotated -90 and 90 degrees. */
  lemma OuterLeadsAtEnds(c: ChainOptions)
    requires c.period != 0 && c.nJj >= 1
    ensures var ch := ChainLayout(c).value;
      && |ch.cells| == c.nJj && |ch.leads| >= 2
      && ch.leads[0] == Lead(ch.cells[0].offX - c.dist / 2.0, 0.0, -90, "left")
      && ch.leads[1] == Lead(ch.cells[c.nJj - 1].offX + c.dist / 2.0, 0.0, 90, "right")
  {
    var cells := Cells(c, c.nJj);
    assert cells[0] == CellAt(c, 0) && cells[c.nJj - 1] == CellAt(c, c.nJj - 1);
  }

  /** Python's `n // p` for `p > 0` is below 2 when `n < 2 * p`, and for `p < 0` and
      `n >= 0` is at most 0. */
  lemma FewSides(n: int, p: int)
    requires p != 0
    ensures p > 0 && n < 2 * p ==> FloorDiv(n, p) <= 1
    ensures p < 0 && n >= 0 ==> FloorDiv(n, p) <= 0
  {
    var q := FloorDiv(n, p);
    if p > 0 {
      MulLeq(2, MaxInt(q, 2), p);
    } else {
      MulLeq(1, MaxInt(q, 1), -p);
    }
  }

  /** With a positive period there are `n_jj // period - 1` side leads (none when
      `n_jj < 2 * period`); with a negative one and `n_jj >= 0` there are none. */
  lemma SideLeadCount(c: ChainOptions)
    requires c.period != 0
    ensures var ch := ChainLayout(c).value;
      |ch.leads| == 2 + RangeLength(FloorDiv(c.nJj, c.period) - 1)
    ensures c.period > 0 && c.nJj < 2 * c.period ==> |ChainLayout(c).value.leads| == 2
    ensures c.period < 0 && c.nJj >= 0 ==> |ChainLayout(c).value.leads| == 2
  {
    FewSides(c.nJj, c.period);
  }

  /** Side lead `i_side` of a chain with positive period `p` marks cell
      `k = i_side * p`, which has a cell before it and lies inside the chain. */
  lemma SideCellInChain(n: int, p: int, iSide: int)
    requires p > 0 && 1 <= iSide < FloorDiv(n, p)
    ensures 1 <= iSide * p < n
  {
    var q := FloorDiv(n, p);
    MulLeq(iSide + 1, q, p);
    MulLeq(1, iSide, p);
  }

  /** With a positive period, side lead `t` (`i_side = t + 1`) sits at the boundary
      between cells `k - 1` and `k`, where `k = i_side * period`, both of them cells of
      the chain, half a lead width below the axis. */
  lemma SideLeadsBetweenCells(c: ChainOptions, t: int)
    requires c.period > 0
    requires 0 <= t < |ChainLayout(c).value.leads| - 2
    ensures var ch := ChainLayout(c).value;
      var k := (t + 1) * c.period;
      && 1 <= k < c.nJj && |ch.cells| == c.nJj
      && ch.leads[t + 2].x == (ch.cells[k - 1].offX + ch.cells[k].offX) / 2.0
      && ch.leads[t + 2].y == -c.leadWidth / 2.0 && ch.leads[t + 2].rotation == 0
      && ch.leads[t + 2].affix == NatToString(t + 1)
  {
    var q := FloorDiv(c.nJj, c.period);
    var k := (t + 1) * c.period;
    SideLeadCount(c);
    SideCellInChain(c.nJj, c.period, t + 1);
    var leads := OuterLeads(c) + SideLeads(c, q);
    assert leads[t + 2] == SideLeadAt(c, t + 1);
    var cells := Cells(c, c.nJj);
    assert cells[k - 1] == CellAt(c, k - 1) && cells[k] == CellAt(c, k);
  }

}

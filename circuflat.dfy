/** The rules of `circuFlatV2_1.py` that decide where things go: the corner-anchored
    rectangle, the eight junctions of a cell with their cut rows, layers and names, and
    the row of cells `circuFlatLine.make` draws with their end rounding. The cell is
    described in its own frame: the rotation by `orientation` and the translation by
    `pos_x + offset_x, pos_y + offset_y` are left to the geometry library. */
module CircuFlat {
  import opened Base
  import opened Geometry
  import opened Qgeometry
  import opened JjWithPads

  /** `draw_rectangle_corner_offset(w, h, xoff, yoff)`: the rectangle whose corner is
      at `(xoff, yoff)` and whose opposite corner is at `(xoff + w, yoff + h)`; with a
      negative `w` or `h` it extends to the left or downwards. */
  function CornerOffsetRect(w: real, h: real, xoff: real, yoff: real): (r: Rect)
    ensures r.w == w && r.h == h
    ensures r.cx - r.w / 2.0 == xoff && r.cy - r.h / 2.0 == yoff
    ensures r.cx + r.w / 2.0 == xoff + w && r.cy + r.h / 2.0 == yoff + h
  {
    Rect(xoff + w / 2.0, yoff + h / 2.0, w, h)
  }

  /** Every rectangle is the corner-anchored rectangle at its own corner. */
  lemma CornerOffsetRoundTrip(r: Rect)
    ensures CornerOffsetRect(r.w, r.h, r.cx - r.w / 2.0, r.cy - r.h / 2.0) == r
  {
  }

  /** The options `make_cell` reads for its junctions; `wire_center` is
      `central_width/2 + jj_wire_to_cap_gap + jj_lead_width/2`. */
  datatype CellOptions = CellOptions(fineLength: real, overlap: real, bridgeLength: real, bridgeWidth: real,
                                     cutSize: real, cutsNumber: int, firstLayer: int, cellLength: real,
                                     wireCenter: real)

  /** The tags of the eight junctions, in the order `make_cell` adds their rows. */
  const Tags: seq<string> := ["TL", "CTL", "BL", "CBL", "CTR", "TR", "CBR", "BR"]

  /** `jj_length = jj_fine_length + jj_overlap`. */
  function CellJjLength(p: CellOptions): real {
    p.fineLength + p.overlap
  }

  /** The shifted junction `make_cell` draws at `(x, y)`. */
  function CellJj(p: CellOptions, x: real, y: real): JjRects {
    ShiftedJj(CellJjLength(p), p.bridgeLength, p.bridgeWidth, p.cutSize, p.cutsNumber, x, y)
  }

  /** The eight junctions of a cell: the bridges at `cell_length/2` and
      `3*cell_length/2`, each on the top wire (`+wire_center`) and the bottom wire
      (`-wire_center`), each with a left and a right side. */
  function CellJunctions(p: CellOptions): (juncs: seq<Junction>)
    ensures |juncs| == |Tags| && Complete(juncs, p.cutsNumber)
    ensures forall j :: 0 <= j < |juncs| ==> juncs[j].tag == Tags[j]
  {
    var tl := CellJj(p, p.cellLength / 2.0, p.wireCenter);
    var bl := CellJj(p, p.cellLength / 2.0, -p.wireCenter);
    var tr := CellJj(p, p.cellLength * 3.0 / 2.0, p.wireCenter);
    var br := CellJj(p, p.cellLength * 3.0 / 2.0, -p.wireCenter);
    [Junction("TL", tl.left), Junction("CTL", tl.right), Junction("BL", bl.left), Junction("CBL", bl.right),
     Junction("CTR", tr.left), Junction("TR", tr.right), Junction("CBR", br.left), Junction("BR", br.right)]
  }

  /** The four `proximity_corrected_jj` calls of `make_cell`. */
  method DrawCellJunctions(p: CellOptions) returns (juncs: seq<Junction>)
    ensures juncs == CellJunctions(p)
  {
    var jjLength := p.fineLength + p.overlap;
    var tl, ctl := ShiftedProximityJj(jjLength, p.bridgeLength, p.bridgeWidth, p.cutSize, p.cutsNumber,
                                      p.cellLength / 2.0, p.wireCenter);
    var bl, cbl := ShiftedProximityJj(jjLength, p.bridgeLength, p.bridgeWidth, p.cutSize, p.cutsNumber,
                                      p.cellLength / 2.0, -p.wireCenter);
    var ctr, tr := ShiftedProximityJj(jjLength, p.bridgeLength, p.bridgeWidth, p.cutSize, p.cutsNumber,
                                      p.cellLength * 3.0 / 2.0, p.wireCenter);
    var cbr, br := ShiftedProximityJj(jjLength, p.bridgeLength, p.bridgeWidth, p.cutSize, p.cutsNumber,
                                      p.cellLength * 3.0 / 2.0, -p.wireCenter);
    juncs := [Junction("TL", tl), Junction("CTL", ctl), Junction("BL", bl), Junction("CBL", cbl),
              Junction("CTR", ctr), Junction("TR", tr), Junction("CBR", cbr), Junction("BR", br)];
  }

  /** The shifted junction at `(x, y)` has its left side at `x - span` and its right
      side at `x + span`. */
  lemma CellJjColumns(p: CellOptions, x: real, y: real)
    ensures var r, span := CellJj(p, x, y), HalfSpan(CellJjLength(p), p.bridgeWidth);
      && (forall k :: 0 <= k < |r.left| ==> r.left[k].cx == x - span)
      && (forall k :: 0 <= k < |r.right| ==> r.right[k].cx == x + span)
  {
    var l, span := CellJjLength(p), HalfSpan(CellJjLength(p), p.bridgeWidth);
    SideLayout(l, p.bridgeLength, p.cutSize, p.cutsNumber, x - span, y);
    SideLayout(l, p.bridgeLength, p.cutSize, p.cutsNumber, x + span, y);
  }

  /** Each bridge has one junction side on either hand, `2 * span` apart: the left
      bridge at `cell_length/2`, the right one at `3*cell_length/2`, and the junctions
      of the bottom wire in the same columns as those of the top wire. */
  lemma CellJunctionColumns(p: CellOptions)
    ensures var juncs, span := CellJunctions(p), HalfSpan(CellJjLength(p), p.bridgeWidth);
      && (forall k :: 0 <= k < |juncs[0].rects| ==>
            juncs[0].rects[k].cx == juncs[2].rects[k].cx == p.cellLength / 2.0 - span
            && juncs[1].rects[k].cx == juncs[3].rects[k].cx == p.cellLength / 2.0 + span)
      && (forall k :: 0 <= k < |juncs[4].rects| ==>
            juncs[4].rects[k].cx == juncs[6].rects[k].cx == p.cellLength * 3.0 / 2.0 - span
            && juncs[5].rects[k].cx == juncs[7].rects[k].cx == p.cellLength * 3.0 / 2.0 + span)
  {
    CellJjColumns(p, p.cellLength / 2.0, p.wireCenter);
    CellJjColumns(p, p.cellLength / 2.0, -p.wireCenter);
    CellJjColumns(p, p.cellLength * 3.0 / 2.0, p.wireCenter);
    CellJjColumns(p, p.cellLength * 3.0 / 2.0, -p.wireCenter);
  }

  /** The lower cut of pair `i` of each bottom-wire junction lies where the lower cut
      of its top-wire partner belongs, the partner's upper cut reflected in the top
      wire's axis, and the other way round, because `proximity_corrected_jj` reflects
      its lower cuts in y = 0. */
  lemma LowerCutsSwapped(p: CellOptions, i: int)
    requires 0 <= i < RangeLength(p.cutsNumber)
    ensures var juncs := CellJunctions(p);
      && SwappedPair(juncs[0].rects, juncs[2].rects, p.wireCenter, i)
      && SwappedPair(juncs[1].rects, juncs[3].rects, p.wireCenter, i)
      && SwappedPair(juncs[4].rects, juncs[6].rects, p.wireCenter, i)
      && SwappedPair(juncs[5].rects, juncs[7].rects, p.wireCenter, i)
  {
    BridgeCutsSwapped(p, p.cellLength / 2.0, i);
    BridgeCutsSwapped(p, p.cellLength * 3.0 / 2.0, i);
  }

  /** The lower cut of pair `i` of `bottom` is the upper cut of `top` reflected in
      y = `axis`. */
  predicate SwappedPair(top: seq<Rect>, bottom: seq<Rect>, axis: real, i: int) {
    0 <= 2 * i + 1 < |bottom| && 2 * i < |top|
    && bottom[2 * i + 1] == top[2 * i].(cy := 2.0 * axis - top[2 * i].cy)
  }

  lemma BridgeCutsSwapped(p: CellOptions, x: real, i: int)
    requires 0 <= i < RangeLength(p.cutsNumber)
    ensures var top, bottom := CellJj(p, x, p.wireCenter), CellJj(p, x, -p.wireCenter);
      SwappedPair(top.left, bottom.left, p.wireCenter, i) && SwappedPair(top.right, bottom.right, p.wireCenter, i)
  {
    SwappedLowerCuts(CellJjLength(p), p.bridgeLength, p.bridgeWidth, p.cutSize, p.cutsNumber, x, p.wireCenter, i);
  }

  /** The cut rows of `make_cell` as written: `f"jj_cut_TL_{i}" + affix` raises
      `TypeError` when `affix` is `None`, the default `circuFlatDoubleCell.make` uses. */
  function CellCutsAsWritten(p: CellOptions, affix: Option<string>): (r: Result<seq<Element>, PyError>)
    ensures r.Failure? <==> affix.None?
    ensures r.Failure? ==> r.error == TypeError
    ensures r.Success? ==> r.value == CellCuts(p, affix)
  {
    match affix
    case None => Failure(TypeError)
    case Some(a) => Success(CutGeometry(CellJunctions(p), p.cutsNumber, p.firstLayer, a))
  }

  /** The suffix a name gets: the affix when there is one, as the other names of
      `make_cell` get it. */
  function Suffix(affix: Option<string>): string {
    if affix.Some? then affix.value else ""
  }

  /** The cut rows of `make_cell`, with the affix appended only when there is one. */
  function CellCuts(p: CellOptions, affix: Option<string>): (r: seq<Element>)
    ensures |r| == 8 * (RangeLength(p.cutsNumber) + 1)
    ensures forall j :: 0 <= j < 8 ==>
      r[8 * RangeLength(p.cutsNumber) + j] == BulkElement(CellJunctions(p)[j], p.firstLayer, Suffix(affix))
  {
    CutGeometry(CellJunctions(p), p.cutsNumber, p.firstLayer, Suffix(affix))
  }

  /** The cut rows of `make_cell`: the four junctions, then the loop over
      `range(proximity_cuts_number)` and the eight bulks. */
  method MakeCellCuts(p: CellOptions, affix: Option<string>) returns (els: seq<Element>)
    ensures els == CellCuts(p, affix)
  {
    var juncs := DrawCellJunctions(p);
    var suffix := "";
    if affix.Some? {
      suffix := affix.value;
    }
    els := AddCuts(juncs, p.cutsNumber, p.firstLayer, suffix);
  }

  /** The default cell raises, where the intended cell has the affix-free names. */
  lemma DefaultCellRaises(p: CellOptions)
    ensures CellCutsAsWritten(p, None) == Failure(TypeError)
    ensures CellCuts(p, None) == CutGeometry(CellJunctions(p), p.cutsNumber, p.firstLayer, "")
  {
  }

  /** With an affix, the corrected rows are the rows as written. */
  lemma CellCutsAgree(p: CellOptions, a: string)
    ensures CellCutsAsWritten(p, Some(a)) == Success(CellCuts(p, Some(a)))
  {
  }

  /** Appending an affix changes nothing about a row but its name, which gets the
      affix at its end. */
  lemma AffixAppended(p: CellOptions, a: string)
    ensures var plain, named := CellCuts(p, None), CellCuts(p, Some(a));
      && |named| == |plain|
      && forall k :: 0 <= k < |plain| ==> named[k] == plain[k].(name := plain[k].name + a)
  {
    SuffixedRows(CellJunctions(p), p.cutsNumber, p.firstLayer, a);
  }

  /** Appending an affix to the rows of any junctions only extends their names. */
  lemma SuffixedRows(juncs: seq<Junction>, cutsNumber: int, firstLayer: int, a: string)
    requires Complete(juncs, cutsNumber) && |juncs| > 0
    ensures var plain, named := CutGeometry(juncs, cutsNumber, firstLayer, ""),
                                CutGeometry(juncs, cutsNumber, firstLayer, a);
      && |named| == |plain|
      && forall k :: 0 <= k < |plain| ==> named[k] == plain[k].(name := plain[k].name + a)
  {
    var n := RangeLength(cutsNumber);
    var rows, rowsA := CutRows(juncs, cutsNumber, firstLayer, "", n), CutRows(juncs, cutsNumber, firstLayer, a, n);
    var bulk, bulkA := BulkRows(juncs, cutsNumber, firstLayer, "", |juncs|),
                       BulkRows(juncs, cutsNumber, firstLayer, a, |juncs|);
    var plain, named := rows + bulk, rowsA + bulkA;
    forall k | 0 <= k < |plain|
      ensures named[k] == plain[k].(name := plain[k].name + a)
    {
      if k < n * |juncs| {
        SuffixedCutRow(juncs, cutsNumber, firstLayer, a, k);
        assert named[k] == rowsA[k] && plain[k] == rows[k];
      } else {
        assert named[k] == bulkA[k - n * |juncs|] && plain[k] == bulk[k - n * |juncs|];
        SuffixedBulk(juncs[k - n * |juncs|], firstLayer, a);
      }
    }
  }

  lemma SuffixedCutRow(juncs: seq<Junction>, cutsNumber: int, firstLayer: int, a: string, k: int)
    requires Complete(juncs, cutsNumber) && |juncs| > 0 && 0 <= k < RangeLength(cutsNumber) * |juncs|
    ensures var n := RangeLength(cutsNumber);
      var plain := CutRows(juncs, cutsNumber, firstLayer, "", n)[k];
      CutRows(juncs, cutsNumber, firstLayer, a, n)[k] == plain.(name := plain.name + a)
  {
    var n := RangeLength(cutsNumber);
    var i, j := k / |juncs|, k % |juncs|;
    DivSplit(k, |juncs|, n);
    CutRowAt(juncs, cutsNumber, firstLayer, "", n, i, j);
    CutRowAt(juncs, cutsNumber, firstLayer, a, n, i, j);
    var stem := "jj_cut_" + juncs[j].tag + "_" + NatToString(i);
    assert stem + "" == stem;
  }

  lemma SuffixedBulk(j: Junction, firstLayer: int, a: string)
    requires |j.rects| >= 1
    ensures var plain := BulkElement(j, firstLayer, "");
      BulkElement(j, firstLayer, a) == plain.(name := plain.name + a)
  {
    var stem := "jj_cut_" + j.tag + "_bulk";
    assert stem + "" == stem;
  }

  /** Row `8i + j` of a cell is cut pair `i` of junction `j`, named
      `jj_cut_<tag>_<i>` plus the suffix, on layer `jj_first_layer + cuts_number - i`. */
  lemma CellCutRow(p: CellOptions, affix: Option<string>, i: int, j: int)
    requires 0 <= i < RangeLength(p.cutsNumber) && 0 <= j < 8
    ensures var g := CellCuts(p, affix);
      && |g| == 8 * RangeLength(p.cutsNumber) + 8
      && g[8 * i + j].name == "jj_cut_" + Tags[j] + "_" + NatToString(i) + Suffix(affix)
      && g[8 * i + j].layer == p.firstLayer + p.cutsNumber - i
  {
    var juncs := CellJunctions(p);
    assert juncs[j].tag == Tags[j];
    RowOfJunction(juncs, p.cutsNumber, p.firstLayer, Suffix(affix), i, j);
  }

  /** The last eight rows of a cell are the bulks, named `jj_cut_<tag>_bulk` plus the
      suffix, on `jj_first_layer`. */
  lemma CellBulkRow(p: CellOptions, affix: Option<string>, j: int)
    requires 0 <= j < 8
    ensures var g := CellCuts(p, affix);
      && |g| == 8 * RangeLength(p.cutsNumber) + 8
      && g[|g| - 8 + j].name == "jj_cut_" + Tags[j] + "_bulk" + Suffix(affix)
      && g[|g| - 8 + j].layer == p.firstLayer
  {
    var juncs := CellJunctions(p);
    assert juncs[j].tag == Tags[j];
    BulkOfJunction(juncs, p.cutsNumber, p.firstLayer, Suffix(affix), j);
  }

  /** Row `i * |juncs| + j` of the cut rows is pair `i` of junction `j`. */
  lemma RowOfJunction(juncs: seq<Junction>, cutsNumber: int, firstLayer: int, suffix: string, i: int, j: int)
    requires Complete(juncs, cutsNumber) && 0 <= i < RangeLength(cutsNumber) && 0 <= j < |juncs|
    ensures 0 <= i * |juncs| + j < RangeLength(cutsNumber) * |juncs|
    ensures var g := CutGeometry(juncs, cutsNumber, firstLayer, suffix);
      && |g| == RangeLength(cutsNumber) * |juncs| + |juncs|
      && g[i * |juncs| + j].name == "jj_cut_" + juncs[j].tag + "_" + NatToString(i) + suffix
      && g[i * |juncs| + j].layer == firstLayer + cutsNumber - i
  {
    var n := RangeLength(cutsNumber);
    var rows := CutRows(juncs, cutsNumber, firstLayer, suffix, n);
    var bulk := BulkRows(juncs, cutsNumber, firstLayer, suffix, |juncs|);
    CutRowAt(juncs, cutsNumber, firstLayer, suffix, n, i, j);
    assert (rows + bulk)[i * |juncs| + j] == rows[i * |juncs| + j];
  }

  /** Row `j` of the last `|juncs|` rows is the bulk of junction `j`. */
  lemma BulkOfJunction(juncs: seq<Junction>, cutsNumber: int, firstLayer: int, suffix: string, j: int)
    requires Complete(juncs, cutsNumber) && 0 <= j < |juncs|
    ensures var g := CutGeometry(juncs, cutsNumber, firstLayer, suffix);
      && |g| == RangeLength(cutsNumber) * |juncs| + |juncs|
      && g[|g| - |juncs| + j].name == "jj_cut_" + juncs[j].tag + "_bulk" + suffix
      && g[|g| - |juncs| + j].layer == firstLayer
  {
    var rows := CutRows(juncs, cutsNumber, firstLayer, suffix, RangeLength(cutsNumber));
    var bulk := BulkRows(juncs, cutsNumber, firstLayer, suffix, |juncs|);
    assert (rows + bulk)[|rows| + j] == bulk[j];
  }

  /** Every cut row of a cell is on a dose layer above `jj_first_layer`, every bulk on
      `jj_first_layer`, and none subtracts. */
  lemma CellCutLayers(p: CellOptions, affix: Option<string>)
    ensures var g := CellCuts(p, affix);
      && |g| == 8 * (RangeLength(p.cutsNumber) + 1)
      && (forall k :: 0 <= k < 8 * RangeLength(p.cutsNumber) ==>
            g[k].layer == p.firstLayer + p.cutsNumber - k / 8 > p.firstLayer)
      && (forall k :: 8 * RangeLength(p.cutsNumber) <= k < |g| ==> g[k].layer == p.firstLayer)
      && (forall k :: 0 <= k < |g| ==> !g[k].subtract)
  {
    CutLayers(CellJunctions(p), p.cutsNumber, p.firstLayer, Suffix(affix));
  }

  /** The end rounding `circuFlatLine.make` gives cell `idx` of `n_cells`. */
  function EndRounding(idx: int, n: int): Option<string> {
    if idx == 0 then Some("left") else if idx == n - 1 then Some("right") else None
  }

  /** The first cell is rounded on the left, the last on the right unless it is also
      the first, and every other cell is not rounded. */
  lemma EndCells(n: int, idx: int)
    requires 0 <= idx < n
    ensures EndRounding(idx, n) == Some("left") <==> idx == 0
    ensures EndRounding(idx, n) == Some("right") <==> 0 < idx == n - 1
    ensures EndRounding(idx, n) == None <==> 0 < idx < n - 1
  {
  }

  /** One `make_cell` call of `circuFlatLine.make`: its offset, its affix and its
      end rounding. */
  datatype LineCell = LineCell(offX: real, offY: real, affix: string, fullyRound: Option<string>)

  /** Cell `idx`, `idx` steps along the line, with affix `<name>_c_<idx>`. */
  function LineCellAt(name: string, n: int, step: Point, idx: nat): LineCell {
    LineCell(Multiple(idx, step.x), Multiple(idx, step.y), name + "_c_" + NatToString(idx), EndRounding(idx, n))
  }

  /** The first `m` cells of a line of `n` cells. */
  function LineCells(name: string, n: int, step: Point, m: nat): (r: seq<LineCell>)
    ensures |r| == m
    ensures forall i :: 0 <= i < m ==> r[i] == LineCellAt(name, n, step, i)
  {
    if m == 0 then [] else LineCells(name, n, step, m - 1) + [LineCellAt(name, n, step, m - 1)]
  }

  /** The cut rows of each of the first `m` cells. */
  predicate LineDrawn(p: CellOptions, cells: seq<LineCell>, rows: seq<seq<Element>>) {
    |rows| == |cells| && forall i {:trigger rows[i]} :: 0 <= i < |rows| ==> rows[i] == CellCuts(p, Some(cells[i].affix))
  }

  /** The cell loop of `circuFlatLine.make`: each step is `2 * cell_length` along the
      orientation, whose cosine and sine are given. */
  method MakeLine(p: CellOptions, name: string, nCells: int, cosO: real, sinO: real)
    returns (cells: seq<LineCell>, rows: seq<seq<Element>>)
    ensures cells == LineCells(name, nCells, Scale(2.0 * p.cellLength, Point(cosO, sinO)), RangeLength(nCells))
    ensures LineDrawn(p, cells, rows)
  {
    var totCellLength := 2.0 * p.cellLength;
    var step := Scale(totCellLength, Point(cosO, sinO));
    cells, rows := [], [];
    var idx := 0;
    while idx < nCells
      invariant 0 <= idx <= RangeLength(nCells)
      invariant cells == LineCells(name, nCells, step, idx) && LineDrawn(p, cells, rows)
    {
      var fullyRound: Option<string>;
      if idx == 0 {
        fullyRound := Some("left");
      } else if idx == nCells - 1 {
        fullyRound := Some("right");
      } else {
        fullyRound := None;
      }
      var offX := Times(idx, step.x);
      var offY := Times(idx, step.y);
      var affix := name + "_c_" + NatToString(idx);
      var cellRows := MakeCellCuts(p, Some(affix));
      cells := cells + [LineCell(offX, offY, affix, fullyRound)];
      rows := rows + [cellRows];
      idx := idx + 1;
    }
  }

  /** Consecutive cells are one step apart, and the first is at the origin. */
  lemma CellsOneStepApart(name: string, n: int, step: Point, m: nat, i: int)
    requires 0 <= i && i + 1 < m
    ensures var cells := LineCells(name, n, step, m);
      && cells[0].offX == 0.0 && cells[0].offY == 0.0
      && cells[i + 1].offX == cells[i].offX + step.x && cells[i + 1].offY == cells[i].offY + step.y
  {
  }

  /** No two cells of a line get the same affix, so their geometry names differ. */
  lemma AffixesDistinct(name: string, n: int, step: Point, m: nat, i: int, j: int)
    requires 0 <= i < m && 0 <= j < m && i != j
    ensures var cells := LineCells(name, n, step, m);
      cells[i].affix != cells[j].affix
  {
    var cells := LineCells(name, n, step, m);
    var prefix := name + "_c_";
    NatToStringInjective(i, j);
    assert cells[i].affix[|prefix|..] == NatToString(i);
    assert cells[j].affix[|prefix|..] == NatToString(j);
  }
}

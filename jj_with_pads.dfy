/** The proximity-corrected junction of `jj_with_pads_v2.py` (the same function is
    repeated verbatim in `jj_chain_with_pads_v2.py`), its shifted variant of
    `circuFlatV2_1.py`, and the loop of `make` that adds the cut geometry of one or
    more junctions, one dose layer per cut pair. */
module JjWithPads {
  import opened Base
  import opened Geometry
  import opened Qgeometry

  /** The two lists `proximity_corrected_jj` returns. */
  datatype JjRects = JjRects(left: seq<Rect>, right: seq<Rect>)

  /** Centre height of the upper rectangle of cut pair `i`. */
  function CutY(width: real, cutSize: real, yOffset: real, i: int): real {
    yOffset + width / 2.0 - cutSize / 2.0 - i as real * cutSize
  }

  /** `width - 2*cut_size*cuts_number`: the junction width the cut pairs leave. */
  function BulkHeight(width: real, cutSize: real, cutsNumber: int): real {
    width - 2.0 * cutSize * cutsNumber as real
  }

  /** Rectangle `k` of one side, all of whose rectangles are centred at x = `x`: the
      upper and lower rectangle of each cut pair in turn, then the bulk rectangle. */
  function SideRect(length: real, width: real, cutSize: real, cutsNumber: int, x: real, yOffset: real,
                    k: int): Rect
    requires 0 <= k <= 2 * RangeLength(cutsNumber)
  {
    if k == 2 * RangeLength(cutsNumber) then Rect(x, yOffset, length, BulkHeight(width, cutSize, cutsNumber))
    else if k % 2 == 0 then Rect(x, CutY(width, cutSize, yOffset, k / 2), length, cutSize)
    else Rect(x, -CutY(width, cutSize, yOffset, k / 2), length, cutSize)
  }

  /** The first `m` rectangles of a side. */
  function Side(length: real, width: real, cutSize: real, cutsNumber: int, x: real, yOffset: real,
                m: nat): (r: seq<Rect>)
    requires m <= 2 * RangeLength(cutsNumber) + 1
    ensures |r| == m
    ensures forall k :: 0 <= k < m ==> r[k] == SideRect(length, width, cutSize, cutsNumber, x, yOffset, k)
  {
    if m == 0 then []
    else Side(length, width, cutSize, cutsNumber, x, yOffset, m - 1)
         + [SideRect(length, width, cutSize, cutsNumber, x, yOffset, m - 1)]
  }

  /** Both sides, complete. */
  function Sides(length: real, width: real, cutSize: real, cutsNumber: int, xLeft: real, xRight: real,
                 yOffset: real): JjRects
  {
    var n := 2 * RangeLength(cutsNumber) + 1;
    JjRects(Side(length, width, cutSize, cutsNumber, xLeft, yOffset, n),
            Side(length, width, cutSize, cutsNumber, xRight, yOffset, n))
  }

  /** Half the distance between the centres of the left and right rectangles. */
  function HalfSpan(length: real, bridgeWidth: real): real {
    bridgeWidth / 2.0 + length / 2.0
  }

  /** `proximity_corrected_jj` of `jj_with_pads_v2.py`: the offset `x_offset` is part
      of `rec_x_offset`, so the sides sit at `-(x_offset + span)` and `x_offset + span`. */
  function CentredJj(length: real, width: real, bridgeWidth: real, cutSize: real, cutsNumber: int,
                     xOffset: real, yOffset: real): (r: JjRects)
    ensures |r.left| == |r.right| == 2 * RangeLength(cutsNumber) + 1
    ensures forall k :: 0 <= k < |r.right| ==>
      r.right[k] == MirrorX(r.left[k]) && r.right[k].cx == xOffset + HalfSpan(length, bridgeWidth)
  {
    var recX := xOffset + HalfSpan(length, bridgeWidth);
    Sides(length, width, cutSize, cutsNumber, -recX, recX, yOffset)
  }

  /** `proximity_corrected_jj` of `circuFlatV2_1.py`: the sides sit at
      `x_offset - span` and `x_offset + span`. */
  function ShiftedJj(length: real, width: real, bridgeWidth: real, cutSize: real, cutsNumber: int,
                     xOffset: real, yOffset: real): (r: JjRects)
    ensures |r.left| == |r.right| == 2 * RangeLength(cutsNumber) + 1
    ensures forall k :: 0 <= k < |r.right| ==>
      && r.right[k] == r.left[k].(cx := r.right[k].cx)
      && r.left[k].cx + r.right[k].cx == 2.0 * xOffset
      && r.right[k].cx - r.left[k].cx == 2.0 * HalfSpan(length, bridgeWidth)
  {
    var span := HalfSpan(length, bridgeWidth);
    Sides(length, width, cutSize, cutsNumber, xOffset - span, xOffset + span, yOffset)
  }

  /** The loop both variants share: `range(cuts_number)` cut pairs per side, each the
      rectangle at `+rec_y_offset` then the one at `-rec_y_offset`, then the bulk. */
  method DrawSides(length: real, width: real, cutSize: real, cutsNumber: int, xLeft: real, xRight: real,
                   yOffset: real) returns (left: seq<Rect>, right: seq<Rect>)
    ensures JjRects(left, right) == Sides(length, width, cutSize, cutsNumber, xLeft, xRight, yOffset)
  {
    left, right := [], [];
    var i := 0;
    while i < cutsNumber
      invariant 0 <= i <= RangeLength(cutsNumber)
      invariant left == Side(length, width, cutSize, cutsNumber, xLeft, yOffset, 2 * i)
      invariant right == Side(length, width, cutSize, cutsNumber, xRight, yOffset, 2 * i)
    {
      var recY := yOffset + width / 2.0 - cutSize / 2.0 - i as real * cutSize;
      assert recY == CutY(width, cutSize, yOffset, i);
      SideStep(length, width, cutSize, cutsNumber, xLeft, yOffset, i);
      SideStep(length, width, cutSize, cutsNumber, xRight, yOffset, i);
      left := left + [Rect(xLeft, recY, length, cutSize)];
      left := left + [Rect(xLeft, -recY, length, cutSize)];
      right := right + [Rect(xRight, recY, length, cutSize)];
      right := right + [Rect(xRight, -recY, length, cutSize)];
      i := i + 1;
    }
    var remaining := width - 2.0 * cutSize * cutsNumber as real;
    assert remaining == BulkHeight(width, cutSize, cutsNumber);
    SideEnd(length, width, cutSize, cutsNumber, xLeft, yOffset);
    SideEnd(length, width, cutSize, cutsNumber, xRight, yOffset);
    left := left + [Rect(xLeft, yOffset, length, remaining)];
    right := right + [Rect(xRight, yOffset, length, remaining)];
  }

  lemma SideStep(length: real, width: real, cutSize: real, cutsNumber: int, x: real, yOffset: real, i: nat)
    requires i < RangeLength(cutsNumber)
    ensures Side(length, width, cutSize, cutsNumber, x, yOffset, 2 * i + 2)
            == Side(length, width, cutSize, cutsNumber, x, yOffset, 2 * i)
               + [Rect(x, CutY(width, cutSize, yOffset, i), length, cutSize),
                  Rect(x, -CutY(width, cutSize, yOffset, i), length, cutSize)]
  {
    assert (2 * i + 1) / 2 == i && (2 * i) / 2 == i && (2 * i + 1) % 2 == 1;
  }

  lemma SideEnd(length: real, width: real, cutSize: real, cutsNumber: int, x: real, yOffset: real)
    ensures Side(length, width, cutSize, cutsNumber, x, yOffset, 2 * RangeLength(cutsNumber) + 1)
            == Side(length, width, cutSize, cutsNumber, x, yOffset, 2 * RangeLength(cutsNumber))
               + [Rect(x, yOffset, length, BulkHeight(width, cutSize, cutsNumber))]
  {
  }

  /** `proximity_corrected_jj` of `jj_with_pads_v2.py` and `jj_chain_with_pads_v2.py`. */
  method ProximityCorrectedJj(length: real, width: real, bridgeWidth: real, cutSize: real, cutsNumber: int,
                              xOffset: real, yOffset: real) returns (left: seq<Rect>, right: seq<Rect>)
    ensures JjRects(left, right) == CentredJj(length, width, bridgeWidth, cutSize, cutsNumber, xOffset, yOffset)
  {
    var recXOffset := xOffset + bridgeWidth / 2.0 + length / 2.0;
    left, right := DrawSides(length, width, cutSize, cutsNumber, -recXOffset, recXOffset, yOffset);
  }

  /** `proximity_corrected_jj` of `circuFlatV2_1.py`. */
  method ShiftedProximityJj(length: real, width: real, bridgeWidth: real, cutSize: real, cutsNumber: int,
                            xOffset: real, yOffset: real) returns (left: seq<Rect>, right: seq<Rect>)
    ensures JjRects(left, right) == ShiftedJj(length, width, bridgeWidth, cutSize, cutsNumber, xOffset, yOffset)
  {
    var recXOffset := bridgeWidth / 2.0 + length / 2.0;
    left, right := DrawSides(length, width, cutSize, cutsNumber, xOffset - recXOffset, xOffset + recXOffset,
                             yOffset);
  }

  /** One side has `2 * cuts_number + 1` rectangles (none of them cuts when
      `cuts_number <= 0`), all `length` wide and centred at `x`; the cuts are `cut_size`
      high, the rectangle pair `i` at heights `+CutY(i)` and `-CutY(i)`, and the last is
      the bulk, `width - 2*cut_size*cuts_number` high and centred at `y_offset`. */
  lemma SideLayout(length: real, width: real, cutSize: real, cutsNumber: int, x: real, yOffset: real)
    ensures var s := Side(length, width, cutSize, cutsNumber, x, yOffset, 2 * RangeLength(cutsNumber) + 1);
      && |s| == 2 * RangeLength(cutsNumber) + 1
      && (forall k :: 0 <= k < |s| ==> s[k].cx == x && s[k].w == length)
      && (forall k :: 0 <= k < |s| - 1 ==> s[k].h == cutSize)
      && (forall k :: 0 <= k < |s| - 1 && k % 2 == 0 ==> s[k].cy == CutY(width, cutSize, yOffset, k / 2))
      && (forall k :: 0 <= k < |s| - 1 && k % 2 == 1 ==> s[k].cy == -CutY(width, cutSize, yOffset, k / 2))
      && s[|s| - 1].cy == yOffset && s[|s| - 1].h == BulkHeight(width, cutSize, cutsNumber)
  {
  }

  /** The two rectangles of a cut pair are reflections of each other in the line
      y = 0, whatever `y_offset` is. */
  lemma CutPairsMirrored(length: real, width: real, cutSize: real, cutsNumber: int, x: real, yOffset: real,
                         i: int)
    requires 0 <= i < RangeLength(cutsNumber)
    ensures var s := Side(length, width, cutSize, cutsNumber, x, yOffset, 2 * RangeLength(cutsNumber) + 1);
      s[2 * i + 1] == MirrorY(s[2 * i])
  {
    var s := Side(length, width, cutSize, cutsNumber, x, yOffset, 2 * RangeLength(cutsNumber) + 1);
    assert (2 * i + 1) / 2 == i && (2 * i) / 2 == i;
    assert s[2 * i] == SideRect(length, width, cutSize, cutsNumber, x, yOffset, 2 * i);
  }

  /** With `cuts_number >= 0`, the upper cuts and then the bulk stack down from the
      junction's top edge without gap or overlap: the top of cut pair `i` lies `i` cuts
      below `y_offset + width/2`, and the bulk's top edge is the bottom of the last cut. */
  lemma CutsStackFromTop(width: real, cutSize: real, cutsNumber: int, yOffset: real, i: int)
    requires 0 <= i < cutsNumber
    ensures CutY(width, cutSize, yOffset, i) + cutSize / 2.0 == yOffset + width / 2.0 - i as real * cutSize
    ensures CutY(width, cutSize, yOffset, i) - cutSize / 2.0
            == yOffset + width / 2.0 - (i + 1) as real * cutSize
    ensures yOffset + BulkHeight(width, cutSize, cutsNumber) / 2.0
            == yOffset + width / 2.0 - cutsNumber as real * cutSize
  {
  }

  /** In `jj_with_pads_v2.py` the right side is the left side reflected in the line
      x = 0, whatever `x_offset` is. */
  lemma CentredJjMirrored(length: real, width: real, bridgeWidth: real, cutSize: real, cutsNumber: int,
                          xOffset: real, yOffset: real)
    ensures var r := CentredJj(length, width, bridgeWidth, cutSize, cutsNumber, xOffset, yOffset);
      && |r.left| == |r.right| == 2 * RangeLength(cutsNumber) + 1
      && (forall k :: 0 <= k < |r.left| ==> r.right[k] == MirrorX(r.left[k]))
      && (forall k :: 0 <= k < |r.left| ==> r.right[k].cx == xOffset + HalfSpan(length, bridgeWidth))
  {
  }

  /** In `circuFlatV2_1.py` the two sides are reflections of each other in the line
      x = `x_offset`, `2 * span` apart. */
  lemma ShiftedJjMirrored(length: real, width: real, bridgeWidth: real, cutSize: real, cutsNumber: int,
                          xOffset: real, yOffset: real)
    ensures var r := ShiftedJj(length, width, bridgeWidth, cutSize, cutsNumber, xOffset, yOffset);
      && |r.left| == |r.right| == 2 * RangeLength(cutsNumber) + 1
      && (forall k :: 0 <= k < |r.left| ==> r.right[k] == r.left[k].(cx := 2.0 * xOffset - r.left[k].cx))
      && (forall k :: 0 <= k < |r.left| ==> r.right[k].cx - r.left[k].cx == 2.0 * HalfSpan(length, bridgeWidth))
  {
  }

  /** Because the lower rectangle of a cut pair is reflected in y = 0 rather than in
      y = `y_offset`, the junction drawn at `-y_offset` puts its lower cuts exactly where
      the lower cuts of the junction at `y_offset` belong (the upper cuts reflected in
      y = `y_offset`): `circuFlatV2_1.py` draws its junctions in such pairs. */
  lemma SwappedLowerCuts(length: real, width: real, bridgeWidth: real, cutSize: real, cutsNumber: int,
                         xOffset: real, yOffset: real, i: int)
    requires 0 <= i < RangeLength(cutsNumber)
    ensures var up := ShiftedJj(length, width, bridgeWidth, cutSize, cutsNumber, xOffset, yOffset);
      var down := ShiftedJj(length, width, bridgeWidth, cutSize, cutsNumber, xOffset, -yOffset);
      && down.left[2 * i + 1] == up.left[2 * i].(cy := 2.0 * yOffset - up.left[2 * i].cy)
      && down.right[2 * i + 1] == up.right[2 * i].(cy := 2.0 * yOffset - up.right[2 * i].cy)
  {
    assert (2 * i + 1) / 2 == i && (2 * i) / 2 == i;
  }

  /** One junction's rectangle list and the tag its geometry names carry. */
  datatype Junction = Junction(tag: string, rects: seq<Rect>)

  /** Every junction has the `2 * cuts_number + 1` rectangles
      `proximity_corrected_jj` returns. */
  predicate Complete(juncs: seq<Junction>, cutsNumber: int) {
    forall j :: 0 <= j < |juncs| ==> |juncs[j].rects| == 2 * RangeLength(cutsNumber) + 1
  }

  /** The row for cut pair `i` of a junction: the union of its two rectangles, on dose
      layer `jj_first_layer + cuts_number - i`. */
  function CutElement(j: Junction, i: int, cutsNumber: int, firstLayer: int, affix: string): Element
    requires 0 <= i && 2 * i + 1 < |j.rects|
  {
    Element("jj_cut_" + j.tag + "_" + NatToString(i) + affix,
            Union([Some(Box(j.rects[2 * i])), Some(Box(j.rects[2 * i + 1]))]),
            firstLayer + cutsNumber - i, false, None)
  }

  /** The row for the bulk rectangle (the last one) of a junction, on `jj_first_layer`. */
  function BulkElement(j: Junction, firstLayer: int, affix: string): Element
    requires |j.rects| >= 1
  {
    Element("jj_cut_" + j.tag + "_bulk" + affix, Box(j.rects[|j.rects| - 1]), firstLayer, false, None)
  }

  /** The rows for cut pair `i` of the first `m` junctions. */
  function PairRows(juncs: seq<Junction>, cutsNumber: int, firstLayer: int, affix: string, i: int,
                    m: nat): (r: seq<Element>)
    requires Complete(juncs, cutsNumber) && 0 <= i < RangeLength(cutsNumber) && m <= |juncs|
    ensures |r| == m
    ensures forall j :: 0 <= j < m ==> r[j] == CutElement(juncs[j], i, cutsNumber, firstLayer, affix)
  {
    if m == 0 then []
    else PairRows(juncs, cutsNumber, firstLayer, affix, i, m - 1)
         + [CutElement(juncs[m - 1], i, cutsNumber, firstLayer, affix)]
  }

  /** The rows for cut pairs `0 .. i - 1` of every junction, pair by pair. */
  function CutRows(juncs: seq<Junction>, cutsNumber: int, firstLayer: int, affix: string, i: nat): (r: seq<Element>)
    requires Complete(juncs, cutsNumber) && i <= RangeLength(cutsNumber)
    ensures |r| == i * |juncs|
  {
    if i == 0 then []
    else CutRows(juncs, cutsNumber, firstLayer, affix, i - 1)
         + PairRows(juncs, cutsNumber, firstLayer, affix, i - 1, |juncs|)
  }

  /** The bulk rows of the first `m` junctions. */
  function BulkRows(juncs: seq<Junction>, cutsNumber: int, firstLayer: int, affix: string, m: nat): (r: seq<Element>)
    requires Complete(juncs, cutsNumber) && m <= |juncs|
    ensures |r| == m
    ensures forall j :: 0 <= j < m ==> r[j] == BulkElement(juncs[j], firstLayer, affix)
  {
    if m == 0 then []
    else BulkRows(juncs, cutsNumber, firstLayer, affix, m - 1) + [BulkElement(juncs[m - 1], firstLayer, affix)]
  }

  /** Everything the cut loop adds: the cut pairs, then the bulks. */
  function CutGeometry(juncs: seq<Junction>, cutsNumber: int, firstLayer: int, affix: string): seq<Element>
    requires Complete(juncs, cutsNumber)
  {
    CutRows(juncs, cutsNumber, firstLayer, affix, RangeLength(cutsNumber))
      + BulkRows(juncs, cutsNumber, firstLayer, affix, |juncs|)
  }

  /** The `add_qgeometry` loop over `range(proximity_cuts_number)` and the bulk rows
      after it, for junctions listed in the order `make` adds them. */
  method AddCuts(juncs: seq<Junction>, cutsNumber: int, firstLayer: int, affix: string)
    returns (els: seq<Element>)
    requires Complete(juncs, cutsNumber)
    ensures els == CutGeometry(juncs, cutsNumber, firstLayer, affix)
  {
    els := [];
    var i := 0;
    while i < cutsNumber
      invariant 0 <= i <= RangeLength(cutsNumber)
      invariant els == CutRows(juncs, cutsNumber, firstLayer, affix, i)
    {
      var pair := AddPair(juncs, cutsNumber, firstLayer, affix, i);
      els := els + pair;
      i := i + 1;
    }
    var bulks := AddBulks(juncs, cutsNumber, firstLayer, affix);
    els := els + bulks;
  }

  /** One pass of the loop body: cut pair `i` of every junction. */
  method AddPair(juncs: seq<Junction>, cutsNumber: int, firstLayer: int, affix: string, i: int)
    returns (els: seq<Element>)
    requires Complete(juncs, cutsNumber) && 0 <= i < RangeLength(cutsNumber)
    ensures els == PairRows(juncs, cutsNumber, firstLayer, affix, i, |juncs|)
  {
    els := [];
    var j := 0;
    while j < |juncs|
      invariant 0 <= j <= |juncs|
      invariant els == PairRows(juncs, cutsNumber, firstLayer, affix, i, j)
    {
      var rects := juncs[j].rects;
      els := els + [Element("jj_cut_" + juncs[j].tag + "_" + NatToString(i) + affix,
                            Union([Some(Box(rects[2 * i])), Some(Box(rects[2 * i + 1]))]),
                            firstLayer + cutsNumber - i, false, None)];
      j := j + 1;
    }
  }

  /** The bulk rows, one per junction. */
  method AddBulks(juncs: seq<Junction>, cutsNumber: int, firstLayer: int, affix: string)
    returns (els: seq<Element>)
    requires Complete(juncs, cutsNumber)
    ensures els == BulkRows(juncs, cutsNumber, firstLayer, affix, |juncs|)
  {
    els := [];
    var j := 0;
    while j < |juncs|
      invariant 0 <= j <= |juncs|
      invariant els == BulkRows(juncs, cutsNumber, firstLayer, affix, j)
    {
      var rects := juncs[j].rects;
      els := els + [Element("jj_cut_" + juncs[j].tag + "_bulk" + affix, Box(rects[|rects| - 1]),
                            firstLayer, false, None)];
      j := j + 1;
    }
  }

  /** Row `i * |juncs| + j` is cut pair `i` of junction `j`. */
  lemma {:induction false} CutRowAt(juncs: seq<Junction>, cutsNumber: int, firstLayer: int, affix: string,
                                    n: nat, i: int, j: int)
    requires Complete(juncs, cutsNumber) && n <= RangeLength(cutsNumber)
    requires 0 <= i < n && 0 <= j < |juncs|
    ensures 0 <= i * |juncs| + j < n * |juncs|
    ensures CutRows(juncs, cutsNumber, firstLayer, affix, n)[i * |juncs| + j]
            == CutElement(juncs[j], i, cutsNumber, firstLayer, affix)
    decreases n
  {
    var prev := CutRows(juncs, cutsNumber, firstLayer, affix, n - 1);
    assert |prev| == (n - 1) * |juncs|;
    if i < n - 1 {
      CutRowAt(juncs, cutsNumber, firstLayer, affix, n - 1, i, j);
      MulLeq(i + 1, n - 1, |juncs|);
    } else {
      assert i * |juncs| + j - |prev| == j;
    }
  }

  /** Row `k` of `n` blocks of `d` rows is row `k % d` of block `k / d`. */
  lemma DivSplit(k: int, d: int, n: int)
    requires d > 0 && 0 <= k < n * d
    ensures 0 <= k / d < n && 0 <= k % d < d && k == k / d * d + k % d
  {
    if k / d >= n {
      MulLeq(n, k / d, d);
    }
  }

  lemma MulLeq(a: int, b: int, c: nat)
    requires a <= b
    ensures a * c <= b * c
  {
    assert b * c - a * c == (b - a) * c;
  }

  /** Every cut row goes above the bulk layer, row `k` of the cuts (cut pair
      `k / |juncs|`) to dose layer `jj_first_layer + cuts_number - k / |juncs|`, and every
      bulk row to `jj_first_layer`; none of them subtracts. */
  lemma CutLayers(juncs: seq<Junction>, cutsNumber: int, firstLayer: int, affix: string)
    requires Complete(juncs, cutsNumber) && |juncs| > 0
    ensures var g := CutGeometry(juncs, cutsNumber, firstLayer, affix);
      && |g| == (RangeLength(cutsNumber) + 1) * |juncs|
      && (forall k :: 0 <= k < RangeLength(cutsNumber) * |juncs| ==>
            g[k].layer == firstLayer + cutsNumber - k / |juncs| > firstLayer)
      && (forall k :: RangeLength(cutsNumber) * |juncs| <= k < |g| ==> g[k].layer == firstLayer)
      && (forall k :: 0 <= k < |g| ==> !g[k].subtract)
  {
    var n := RangeLength(cutsNumber);
    var rows: seq<Element> := CutRows(juncs, cutsNumber, firstLayer, affix, n);
    var bulk: seq<Element> := BulkRows(juncs, cutsNumber, firstLayer, affix, |juncs|);
    var g := rows + bulk;
    assert (n + 1) * |juncs| == n * |juncs| + |juncs|;
    forall k | 0 <= k < n * |juncs|
      ensures g[k].layer == firstLayer + cutsNumber - k / |juncs| > firstLayer
    {
      var i, j := k / |juncs|, k % |juncs|;
      DivSplit(k, |juncs|, n);
      CutRowAt(juncs, cutsNumber, firstLayer, affix, n, i, j);
      assert g[k] == rows[k];
    }
    forall k | n * |juncs| <= k < |g|
      ensures g[k].layer == firstLayer
    {
      assert g[k] == bulk[k - n * |juncs|];
    }
    NoSubtract(juncs, cutsNumber, firstLayer, affix, n);
  }

  lemma {:induction false} NoSubtract(juncs: seq<Junction>, cutsNumber: int, firstLayer: int, affix: string,
                                      n: nat)
    requires Complete(juncs, cutsNumber) && n <= RangeLength(cutsNumber)
    ensures forall k :: 0 <= k < n * |juncs| ==> !CutRows(juncs, cutsNumber, firstLayer, affix, n)[k].subtract
    decreases n
  {
    if n > 0 {
      NoSubtract(juncs, cutsNumber, firstLayer, affix, n - 1);
    }
  }

  /** `wire_length = pads_distance/2 - jj_bridge_width/2 - jj_to_bridge_length`. */
  function WireLength(padsDistance: real, bridgeWidth: real, toBridgeLength: real): real {
    padsDistance / 2.0 - bridgeWidth / 2.0 - toBridgeLength
  }

  /** `jj_length = jj_fine_length + alignment_tol`. */
  function JjLength(fineLength: real, alignmentTol: real): real {
    fineLength + alignmentTol
  }

  /** The options the two pad wires read. */
  datatype WireOptions = WireOptions(padsDistance: real, bridgeWidth: real, toBridgeLength: real,
                                     leadWidth: real)

  /** The wire of the left pad, `draw.rectangle(wire_length, jj_lead_width,
      -pads_distance/2 + wire_length/2)`. */
  function LeftWire(p: WireOptions): Rect {
    var w := WireLength(p.padsDistance, p.bridgeWidth, p.toBridgeLength);
    Rect(-p.padsDistance / 2.0 + w / 2.0, 0.0, w, p.leadWidth)
  }

  /** The wire of the right pad, `draw.rectangle(wire_length, jj_lead_width,
      pads_distance/2 - wire_length/2)`. */
  function RightWire(p: WireOptions): Rect {
    var w := WireLength(p.padsDistance, p.bridgeWidth, p.toBridgeLength);
    Rect(p.padsDistance / 2.0 - w / 2.0, 0.0, w, p.leadWidth)
  }

  /** Each wire runs from its pad edge at `-+pads_distance/2` to `jj_to_bridge_length`
      short of the bridge, is `jj_lead_width` high and centred on y = 0, and the right
      wire is the mirror image of the left one. */
  lemma WireReachesBridgeGap(p: WireOptions)
    ensures var l, r := LeftWire(p), RightWire(p);
      && l.cx - l.w / 2.0 == -p.padsDistance / 2.0
      && l.cx + l.w / 2.0 == -p.bridgeWidth / 2.0 - p.toBridgeLength
      && r.cx - r.w / 2.0 == p.bridgeWidth / 2.0 + p.toBridgeLength
      && r.cx + r.w / 2.0 == p.padsDistance / 2.0
      && l.h == r.h == p.leadWidth && l.cy == r.cy == 0.0
      && r == MirrorX(l)
  {
  }

  /** A junction drawn with `jj_length = jj_fine_length + alignment_tol` reaches into
      the wire on its side exactly when `jj_fine_length + alignment_tol` exceeds
      `jj_to_bridge_length`; the overlap along x is then their difference. */
  lemma {:induction false} JunctionReachesWire(p: WireOptions, fineLength: real, alignmentTol: real,
                                               width: real, cutSize: real, cutsNumber: int, k: int)
    requires 0 <= k <= 2 * RangeLength(cutsNumber)
    ensures var r, wire := CentredJj(JjLength(fineLength, alignmentTol), width, p.bridgeWidth, cutSize,
                                     cutsNumber, 0.0, 0.0), RightWire(p);
      && (r.right[k].cx + r.right[k].w / 2.0 > wire.cx - wire.w / 2.0 <==> fineLength + alignmentTol > p.toBridgeLength)
      && r.right[k].cx + r.right[k].w / 2.0 - (wire.cx - wire.w / 2.0) == fineLength + alignmentTol - p.toBridgeLength
  {
    var len := JjLength(fineLength, alignmentTol);
    var r := CentredJj(len, width, p.bridgeWidth, cutSize, cutsNumber, 0.0, 0.0);
    assert r.right[k].cx == HalfSpan(len, p.bridgeWidth);
    assert r.right[k].w == len by {
      assert r.right[k] == SideRect(len, width, cutSize, cutsNumber, HalfSpan(len, p.bridgeWidth), 0.0, k);
    }
    WireReachesBridgeGap(p);
  }

  /** With `jj_length` as the length and no offset, each junction rectangle starts at
      the edge of the bridge and reaches `jj_fine_length + alignment_tol` beyond it. */
  lemma JunctionMeetsBridge(fineLength: real, alignmentTol: real, width: real, bridgeWidth: real,
                            cutSize: real, cutsNumber: int)
    ensures var r := CentredJj(JjLength(fineLength, alignmentTol), width, bridgeWidth, cutSize, cutsNumber, 0.0, 0.0);
      && (forall k :: 0 <= k < |r.right| ==>
            r.right[k].cx - r.right[k].w / 2.0 == bridgeWidth / 2.0
            && r.right[k].cx + r.right[k].w / 2.0 == bridgeWidth / 2.0 + fineLength + alignmentTol)
      && (forall k :: 0 <= k < |r.left| ==>
            r.left[k].cx + r.left[k].w / 2.0 == -bridgeWidth / 2.0
            && r.left[k].cx - r.left[k].w / 2.0 == -bridgeWidth / 2.0 - fineLength - alignmentTol)
  {
  }

  /** The junction options `make` reads. */
  datatype JjOptions = JjOptions(fineLength: real, alignmentTol: real, bridgeLength: real, bridgeWidth: real,
                                 cutSize: real, cutsNumber: int, firstLayer: int)

  /** The junctions `JJ_with_pads.make` draws: left and right of the bridge, at the origin. */
  function PadJunctions(p: JjOptions): (juncs: seq<Junction>)
    ensures Complete(juncs, p.cutsNumber)
  {
    var r := CentredJj(JjLength(p.fineLength, p.alignmentTol), p.bridgeLength, p.bridgeWidth, p.cutSize,
                       p.cutsNumber, 0.0, 0.0);
    [Junction("L", r.left), Junction("R", r.right)]
  }

  /** The junction part of `JJ_with_pads.make`: draws the corrected junction and adds
      its cut rows, left before right for each pair, then the two bulks. */
  method MakeJunction(p: JjOptions) returns (els: seq<Element>)
    ensures els == CutGeometry(PadJunctions(p), p.cutsNumber, p.firstLayer, "")
  {
    var jjLength := p.fineLength + p.alignmentTol;
    var left, right := ProximityCorrectedJj(jjLength, p.bridgeLength, p.bridgeWidth, p.cutSize, p.cutsNumber,
                                            0.0, 0.0);
    els := AddCuts([Junction("L", left), Junction("R", right)], p.cutsNumber, p.firstLayer, "");
  }

  /** Rows `2i` and `2i + 1` are the left and right cut of pair `i`, on layer
      `jj_first_layer + cuts_number - i`; the last two rows are the bulks. */
  lemma PadJunctionLayers(p: JjOptions, i: int)
    requires 0 <= i < RangeLength(p.cutsNumber)
    ensures var g := CutGeometry(PadJunctions(p), p.cutsNumber, p.firstLayer, "");
      && |g| == 2 * RangeLength(p.cutsNumber) + 2
      && g[2 * i].name == "jj_cut_L_" + NatToString(i) && g[2 * i + 1].name == "jj_cut_R_" + NatToString(i)
      && g[2 * i].layer == g[2 * i + 1].layer == p.firstLayer + p.cutsNumber - i
      && g[|g| - 2].name == "jj_cut_L_bulk" && g[|g| - 1].name == "jj_cut_R_bulk"
      && g[|g| - 2].layer == g[|g| - 1].layer == p.firstLayer
  {
    var juncs := PadJunctions(p);
    var n := RangeLength(p.cutsNumber);
    CutRowAt(juncs, p.cutsNumber, p.firstLayer, "", n, i, 0);
    CutRowAt(juncs, p.cutsNumber, p.firstLayer, "", n, i, 1);
    assert "jj_cut_" + "L" + "_" + NatToString(i) + "" == "jj_cut_L_" + NatToString(i);
    assert "jj_cut_" + "R" + "_" + NatToString(i) + "" == "jj_cut_R_" + NatToString(i);
    assert "jj_cut_" + "L" + "_bulk" + "" == "jj_cut_L_bulk";
    assert "jj_cut_" + "R" + "_bulk" + "" == "jj_cut_R_bulk";
  }
}

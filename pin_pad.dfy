/** `PinPad.make` of `pin_pad.py`: one or more rectangles sharing their left edge, one
    row per rectangle, and the pin `pad` on the first. Described before the rotation by
    `orientation` and the translation by `(pos_x, pos_y)`. */
module PinPad {
  import opened Base
  import opened Geometry
  import opened Qgeometry

  /** The options `make` reads, each a scalar or a list. */
  datatype PadOptions = PadOptions(width: Param<real>, height: Param<real>, layer: Param<int>,
                                   subtract: Param<bool>)

  /** What `make` adds: its rows and the rectangle its pin `pad` is taken from. */
  datatype Pad = Pad(elements: seq<Element>, pinRect: Rect)

  /** The four options have lists of the same length once scalars are wrapped. */
  predicate SameLengths(o: PadOptions) {
    var n := |AsList(o.width)|;
    |AsList(o.height)| == n && |AsList(o.layer)| == n && |AsList(o.subtract)| == n
  }

  /** Rectangle `k`: `width[k]` by `height[k]`, centred at `width[k]/2 - width[0]/2`
      on the x axis. */
  function PadRect(widths: seq<real>, heights: seq<real>, k: int): Rect
    requires 0 <= k < |widths| && k < |heights|
  {
    Rect(widths[k] / 2.0 - widths[0] / 2.0, 0.0, widths[k], heights[k])
  }

  /** The first `m` rectangles. */
  function PadRects(widths: seq<real>, heights: seq<real>, m: nat): (r: seq<Rect>)
    requires m <= |widths| && m <= |heights|
    ensures |r| == m
    ensures forall k :: 0 <= k < m ==> r[k] == PadRect(widths, heights, k)
  {
    if m == 0 then [] else PadRects(widths, heights, m - 1) + [PadRect(widths, heights, m - 1)]
  }

  /** The row of rectangle `k`: every row is named `rectangle`. */
  function PadElement(rect: Rect, layer: int, subtract: bool): Element {
    Element("rectangle", Box(rect), layer, subtract, None)
  }

  /** The rows of the first `m` (rectangle, layer, subtract) triples. */
  function PadElements(rects: seq<Rect>, layers: seq<int>, subtracts: seq<bool>, m: nat): (r: seq<Element>)
    requires m <= |rects| && m <= |layers| && m <= |subtracts|
    ensures |r| == m
    ensures forall k :: 0 <= k < m ==> r[k] == PadElement(rects[k], layers[k], subtracts[k])
  {
    if m == 0 then [] else PadElements(rects, layers, subtracts, m - 1) + [PadElement(rects[m - 1], layers[m - 1], subtracts[m - 1])]
  }

  /** What `make` produces: the mixed-arguments `Exception` when the lengths differ,
      the `IndexError` of `rects[0]` when the lists are empty, else the pad. */
  function PadLayout(o: PadOptions): (r: Result<Pad, PyError>)
    ensures r.Success? ==>
      && SameLengths(o) && |r.value.elements| == |AsList(o.width)| > 0
      && r.value.pinRect == Rect(0.0, 0.0, AsList(o.width)[0], AsList(o.height)[0])
  {
    var widths, heights := AsList(o.width), AsList(o.height);
    if !SameLengths(o) then Failure(MixedArguments)
    else if |widths| == 0 then Failure(IndexError)
    else
      var rects := PadRects(widths, heights, |widths|);
      Success(Pad(PadElements(rects, AsList(o.layer), AsList(o.subtract), |rects|), rects[0]))
  }

  /** `PinPad.make`. */
  method MakePad(o: PadOptions) returns (r: Result<Pad, PyError>)
    ensures r == PadLayout(o)
  {
    var widths, heights, layers, subtracts := AsList(o.width), AsList(o.height), AsList(o.layer), AsList(o.subtract);
    if !(|widths| == |heights| && |heights| == |layers| && |layers| == |subtracts|) {
      return Failure(MixedArguments);
    }
    var rects := [];
    var k := 0;
    while k < |widths|
      invariant 0 <= k <= |widths|
      invariant rects == PadRects(widths, heights, k)
    {
      rects := rects + [Rect(widths[k] / 2.0 - widths[0] / 2.0, 0.0, widths[k], heights[k])];
      k := k + 1;
    }
    var els := [];
    k := 0;
    while k < |rects|
      invariant 0 <= k <= |rects|
      invariant els == PadElements(rects, layers, subtracts, k)
    {
      els := els + [Element("rectangle", Box(rects[k]), layers[k], subtracts[k], None)];
      k := k + 1;
    }
    if |rects| == 0 {
      return Failure(IndexError);
    }
    r := Success(Pad(els, rects[0]));
  }

  /** `make` fails exactly when the lengths differ or the lists are empty, with the
      mixed-arguments error first. */
  lemma PadFailures(o: PadOptions)
    ensures PadLayout(o) == Failure(MixedArguments) <==> !SameLengths(o)
    ensures PadLayout(o) == Failure(IndexError) <==> SameLengths(o) && |AsList(o.width)| == 0
    ensures PadLayout(o).Success? <==> SameLengths(o) && |AsList(o.width)| > 0
  {
  }

  /** Scalars alone never mix: all-scalar options give one rectangle, `width` by
      `height` and centred on the origin. */
  lemma ScalarPad(w: real, h: real, layer: int, subtract: bool)
    ensures var r := PadLayout(PadOptions(Scalar(w), Scalar(h), Scalar(layer), Scalar(subtract)));
      && r.Success?
      && r.value.elements == [Element("rectangle", Box(Rect(0.0, 0.0, w, h)), layer, subtract, None)]
      && r.value.pinRect == Rect(0.0, 0.0, w, h)
  {
  }

  /** On success: one row per (rectangle, layer, subtract) triple, in order; every
      rectangle `width[k]` by `height[k]` with its left edge at `-width[0]/2` and centred
      on the x axis; and the pin taken from the first rectangle, the one centred on the
      origin. */
  lemma PadShape(o: PadOptions)
    requires PadLayout(o).Success?
    ensures var pad, widths, heights := PadLayout(o).value, AsList(o.width), AsList(o.height);
      && |pad.elements| == |widths|
      && (forall k :: 0 <= k < |widths| ==>
            && pad.elements[k].name == "rectangle" && pad.elements[k].width.None?
            && pad.elements[k].layer == AsList(o.layer)[k] && pad.elements[k].subtract == AsList(o.subtract)[k]
            && pad.elements[k].shape.Box?
            && var rect := pad.elements[k].shape.rect;
               && rect.w == widths[k] && rect.h == heights[k]
               && rect.cx - rect.w / 2.0 == -widths[0] / 2.0 && rect.cy == 0.0)
      && pad.elements[0].shape == Box(pad.pinRect)
      && pad.pinRect.cx == 0.0 && pad.pinRect.cy == 0.0
  {
  }
}

/** `QRoute_mm.make_elements` of `qRouteMultiMat/qroute_mm.py`: the route's trace on the
    second layer and, for a CPW, its cut on the first. */
module QrouteMm {
  import opened Base
  import opened Geometry
  import opened Qgeometry

  /** The options `make_elements` reads. */
  datatype MmOptions = MmOptions(traceWidth: real, traceGap: real, fillet: real, layer: Param<int>)

  /** A `path` row and the fillet passed with it. */
  datatype MmRow = MmRow(element: Element, fillet: real)

  /** What `make_elements` adds for the points `pts` and the route type `kind`: the
      `IndexError` of `layer[1]` when the layer list is empty, else the trace and, when
      `kind` is `"CPW"`, the cut. */
  function MmRows(o: MmOptions, kind: string, pts: seq<Point>): (r: Result<seq<MmRow>, PyError>)
    ensures r.Failure? ==> r.error == IndexError
    ensures r.Success? ==>
      && 1 <= |r.value| <= 2 && r.value[0].element.name == "trace"
      && forall k :: 0 <= k < |r.value| ==> r.value[k].fillet == o.fillet && r.value[k].element.shape == Line(pts)
  {
    var layers := ToTwo(AsList(o.layer));
    if |layers| < 2 then Failure(IndexError)
    else
      var trace := MmRow(Element("trace", Line(pts), layers[1], false, Some(o.traceWidth)), o.fillet);
      var cut := MmRow(Element("cut", Line(pts), layers[0], true, Some(o.traceWidth + 2.0 * o.traceGap)), o.fillet);
      Success([trace] + (if kind == "CPW" then [cut] else []))
  }

  /** `QRoute_mm.make_elements`, rebinding the layer list as it does. */
  method MakeElements(o: MmOptions, kind: string, pts: seq<Point>) returns (r: Result<seq<MmRow>, PyError>)
    ensures r == MmRows(o, kind, pts)
  {
    var line := Line(pts);
    var layers: seq<int>;
    if o.layer.Scalar? {
      layers := [o.layer.value];
    } else {
      layers := o.layer.items;
    }
    if |layers| == 1 {
      layers := layers + layers;
    }
    assert layers == ToTwo(AsList(o.layer));
    if |layers| < 2 {
      return Failure(IndexError);
    }
    var rows := [MmRow(Element("trace", line, layers[1], false, Some(o.traceWidth)), o.fillet)];
    if kind == "CPW" {
      rows := rows + [MmRow(Element("cut", line, layers[0], true, Some(o.traceWidth + 2.0 * o.traceGap)), o.fillet)];
    }
    assert rows == [rows[0]] + (if kind == "CPW" then [rows[1]] else []);
    r := Success(rows);
  }

  /** `make_elements` fails exactly for an empty layer list; a scalar layer or a
      one-element list puts the trace and the cut on the same layer. */
  lemma MmFailsOnEmptyLayers(o: MmOptions, kind: string, pts: seq<Point>)
    ensures MmRows(o, kind, pts).Failure? <==> o.layer.List? && |o.layer.items| == 0
    ensures |AsList(o.layer)| == 1 && MmRows(o, kind, pts).Success? && kind == "CPW" ==>
      MmRows(o, kind, pts).value[0].element.layer == MmRows(o, kind, pts).value[1].element.layer
  {
  }

  /** On success the trace is always the first row, on the second layer, not
      subtracting, `trace_width` wide; there is a second row exactly for a CPW, and it is
      the cut along the same line, on the first layer, subtracting, `2 * trace_gap`
      wider. */
  lemma MmTraceAndCut(o: MmOptions, kind: string, pts: seq<Point>)
    requires MmRows(o, kind, pts).Success?
    ensures var rows, layers := MmRows(o, kind, pts).value, ToTwo(AsList(o.layer));
      && 1 <= |rows| <= 2
      && rows[0].element == Element("trace", Line(pts), layers[1], false, Some(o.traceWidth))
      && (|rows| == 2 <==> kind == "CPW")
      && (|rows| == 2 ==>
            && rows[1].element.shape == rows[0].element.shape
            && rows[1].element.layer == layers[0] && rows[1].element.subtract
            && rows[1].element.width == Some(o.traceWidth + 2.0 * o.traceGap))
      && forall k :: 0 <= k < |rows| ==> rows[k].fillet == o.fillet
  {
  }
}

/** `LineTeeMultiMat.make` of `line_tee_multimat.py`: the normalisation of its `layer`
    and `impedance` options and the six rows it adds, described before the rotation by
    `orientation` and the translation by `(pos_x, pos_y)`. */
module LineTee {
  import opened Base
  import opened Geometry
  import opened Qgeometry

  /** A value of the `impedance` option: its default `False`, or an impedance. */
  datatype Impedance = Unset | Ohms(z: real)

  /** The options `make` reads. */
  datatype TeeOptions = TeeOptions(primeWidth: real, primeGap: real, secondWidth: real, secondGap: real,
                                   tLength: real, couplingSpace: real, couplingLength: real, downLength: real,
                                   secondEndOverlap: real, openTermination: bool, layer: Param<int>,
                                   impedance: Param<Impedance>)

  /** A row and the impedance passed with it, if any. */
  datatype TeeRow = TeeRow(element: Element, impedance: Option<Impedance>)

  /** The layer rule: one value is used three times, two values `[a, b]` become
      `[a, a, b]`, and longer (or empty) lists are kept. */
  function ToThree<T>(l: seq<T>): (r: seq<T>)
    ensures |l| == 0 ==> r == []
    ensures |l| == 1 ==> r == [l[0], l[0], l[0]]
    ensures |l| == 2 ==> r == [l[0], l[0], l[1]]
    ensures |l| >= 3 ==> r == l
  {
    if |l| == 1 then [l[0], l[0], l[0]] else if |l| == 2 then [l[0], l[0], l[1]] else l
  }

  /** A non-empty list becomes at least three long, keeping its first value first and
      its last value last, and using only its own values. */
  lemma ToThreeKeepsEnds<T>(l: seq<T>)
    requires |l| > 0
    ensures var r := ToThree(l);
      && |r| >= 3 && r[0] == l[0] && r[|r| - 1] == l[|l| - 1]
      && forall k :: 0 <= k < |r| ==> r[k] in l
  {
  }

  /** The `layer` (or, as corrected, `impedance`) normalisation, rebinding the list step
      by step as `make` does. */
  method NormaliseToThree<T>(p: Param<T>) returns (l: seq<T>)
    ensures l == ToThree(AsList(p))
  {
    if p.Scalar? {
      l := [p.value];
    } else {
      l := p.items;
    }
    if |l| == 1 {
      l := [l[0], l[0], l[0]];
    }
    if |l| == 2 {
      l := [l[0], l[0], l[1]];
    }
  }

  /** `prime_cpw`: a line of length `2 * t_length` along the x axis, centred on the
      origin. */
  function PrimeLine(o: TeeOptions): Shape {
    var half := o.tLength * 2.0 / 2.0;
    Line([Point(-half, 0.0), Point(half, 0.0)])
  }

  /** Where the secondary line starts, below the primary trace and the coupling space. */
  function SecondTop(o: TeeOptions): real {
    -o.primeWidth / 2.0 - o.couplingSpace
  }

  /** `second_cpw`. */
  function SecondLine(o: TeeOptions): Shape {
    Line([Point(0.0, SecondTop(o)), Point(0.0, -o.downLength - o.primeWidth / 2.0 - o.couplingSpace - o.secondEndOverlap)])
  }

  /** `second_cpw_sub`: with `open_termination` it reaches `2 * second_gap` further
      down. */
  function SecondCut(o: TeeOptions): Shape {
    if o.openTermination then
      Line([Point(0.0, SecondTop(o)),
            Point(0.0, -o.downLength - o.primeWidth / 2.0 - o.couplingSpace - 2.0 * o.secondGap)])
    else
      Line([Point(0.0, SecondTop(o)), Point(0.0, -o.downLength - o.primeWidth / 2.0 - o.couplingSpace)])
  }

  /** `pad_T` and `pocket`. */
  function PadT(o: TeeOptions): Rect {
    Rect(0.0, -o.primeWidth / 2.0 - o.couplingSpace - o.secondWidth / 2.0, o.couplingLength, o.secondWidth)
  }

  function Pocket(o: TeeOptions): Rect {
    Rect(0.0, -o.couplingSpace / 2.0 - o.primeGap / 2.0 - o.primeWidth / 2.0 - o.secondWidth / 2.0 - o.secondGap / 2.0,
         o.couplingLength + 4.0 * o.secondGap, o.couplingSpace - o.primeGap + o.secondWidth + o.secondGap)
  }

  /** The six rows, in the order `make` adds them. */
  function TeeRows(o: TeeOptions, layers: seq<int>, imps: seq<Impedance>): seq<TeeRow>
    requires |layers| >= 3 && |imps| >= 3
  {
    [TeeRow(Element("prime_cpw", PrimeLine(o), layers[1], false, Some(o.primeWidth)), Some(imps[1])),
     TeeRow(Element("prime_cpw_sub", PrimeLine(o), layers[0], true, Some(o.primeWidth + 2.0 * o.primeGap)), None),
     TeeRow(Element("second_cpw", SecondLine(o), layers[2], false, Some(o.secondWidth)), Some(imps[2])),
     TeeRow(Element("pad_T", Box(PadT(o)), layers[2], false, Some(o.secondWidth)), Some(imps[2])),
     TeeRow(Element("second_cpw_sub", SecondCut(o), layers[0], true, Some(o.secondWidth + 2.0 * o.secondGap)), None),
     TeeRow(Element("pocket", Box(Pocket(o)), layers[0], true, None), None)]
  }

  /** `make` as written: the impedance list is only made two long, so reading
      `impedance[2]` raises `IndexError` unless the user gives three or more values; an
      empty layer list raises at `layer[1]`. */
  function TeeLayoutAsWritten(o: TeeOptions): (r: Result<seq<TeeRow>, PyError>)
    ensures r.Failure? ==> r.error == IndexError
    ensures r.Success? ==> |AsList(o.impedance)| >= 3 && |AsList(o.layer)| > 0 && |r.value| == 6
  {
    var layers, imps := ToThree(AsList(o.layer)), ToTwo(AsList(o.impedance));
    if |layers| < 3 || |imps| < 3 then Failure(IndexError) else Success(TeeRows(o, layers, imps))
  }

  /** `make` with the impedance normalised like the layers. */
  function TeeLayout(o: TeeOptions): (r: Result<seq<TeeRow>, PyError>)
    ensures r.Failure? ==> r.error == IndexError
    ensures r.Success? ==>
      && |r.value| == 6
      && r.value[0].element.name == "prime_cpw" && r.value[1].element.name == "prime_cpw_sub"
      && r.value[2].element.name == "second_cpw" && r.value[3].element.name == "pad_T"
      && r.value[4].element.name == "second_cpw_sub" && r.value[5].element.name == "pocket"
  {
    var layers, imps := ToThree(AsList(o.layer)), ToThree(AsList(o.impedance));
    if |layers| < 3 || |imps| < 3 then Failure(IndexError) else Success(TeeRows(o, layers, imps))
  }

  /** `LineTeeMultiMat.make`, with the impedance normalised like the layers. */
  method MakeTee(o: TeeOptions) returns (r: Result<seq<TeeRow>, PyError>)
    ensures r == TeeLayout(o)
  {
    var layers := NormaliseToThree(o.layer);
    var imps := NormaliseToThree(o.impedance);
    if |layers| < 2 || |imps| < 2 {
      return Failure(IndexError);
    }
    var rows := [TeeRow(Element("prime_cpw", PrimeLine(o), layers[1], false, Some(o.primeWidth)), Some(imps[1]))];
    rows := rows + [TeeRow(Element("prime_cpw_sub", PrimeLine(o), layers[0], true, Some(o.primeWidth + 2.0 * o.primeGap)), None)];
    if |layers| < 3 || |imps| < 3 {
      return Failure(IndexError);
    }
    rows := rows + [TeeRow(Element("second_cpw", SecondLine(o), layers[2], false, Some(o.secondWidth)), Some(imps[2]))];
    rows := rows + [TeeRow(Element("pad_T", Box(PadT(o)), layers[2], false, Some(o.secondWidth)), Some(imps[2]))];
    rows := rows + [TeeRow(Element("second_cpw_sub", SecondCut(o), layers[0], true, Some(o.secondWidth + 2.0 * o.secondGap)), None)];
    rows := rows + [TeeRow(Element("pocket", Box(Pocket(o)), layers[0], true, None), None)];
    assert rows == TeeRows(o, layers, imps);
    r := Success(rows);
  }

  /** As written, a scalar impedance (the default `False` included) or a one- or
      two-element list always raises, whatever the layers. */
  lemma ShortImpedanceRaises(o: TeeOptions)
    requires o.impedance.Scalar? || |o.impedance.items| <= 2
    ensures TeeLayoutAsWritten(o) == Failure(IndexError)
  {
  }

  /** With the impedance normalised like the layers, `make` succeeds exactly when both
      options are non-empty, and where the code as written succeeds it builds the same
      rows. */
  lemma TeeSucceeds(o: TeeOptions)
    ensures TeeLayout(o).Success? <==> |AsList(o.layer)| > 0 && |AsList(o.impedance)| > 0
    ensures TeeLayoutAsWritten(o).Success? ==> TeeLayout(o) == TeeLayoutAsWritten(o)
  {
  }

  /** Every subtracting row is on the first layer; the primary trace is on the second
      layer and the secondary trace and its pad on the third; the traces carry the
      second and third impedances. */
  lemma TeeRowLayers(o: TeeOptions)
    requires TeeLayout(o).Success?
    ensures var rows, layers, imps := TeeLayout(o).value, ToThree(AsList(o.layer)), ToThree(AsList(o.impedance));
      && |rows| == 6
      && (forall k :: 0 <= k < 6 ==> rows[k].element.subtract ==> rows[k].element.layer == layers[0])
      && !rows[0].element.subtract && rows[1].element.subtract && !rows[2].element.subtract
      && !rows[3].element.subtract && rows[4].element.subtract && rows[5].element.subtract
      && rows[0].element.layer == layers[1] && rows[0].impedance == Some(imps[1])
      && rows[2].element.layer == layers[2] && rows[3].element.layer == layers[2]
      && rows[2].impedance == rows[3].impedance == Some(imps[2])
  {
  }

  /** The primary line is `2 * t_length` long and centred on the origin, and its cut
      is `2 * prime_gap` wider than the trace. */
  lemma PrimeLineCentred(o: TeeOptions)
    requires TeeLayout(o).Success?
    ensures var rows := TeeLayout(o).value;
      && rows[0].element.shape == rows[1].element.shape
      && rows[0].element.shape.Line?
      && (var pts := rows[0].element.shape.points;
          |pts| == 2 && pts[1].x - pts[0].x == 2.0 * o.tLength && pts[0].x + pts[1].x == 0.0
          && pts[0].y == pts[1].y == 0.0)
      && rows[1].element.width == Some(rows[0].element.width.value + 2.0 * o.primeGap)
  {
  }

  /** An open termination moves the end of the secondary cut `2 * second_gap` further
      down and changes nothing else. */
  lemma OpenTerminationExtends(o: TeeOptions)
    ensures var ends, plain := SecondCut(o.(openTermination := true)), SecondCut(o.(openTermination := false));
      && ends.Line? && plain.Line? && |ends.points| == |plain.points| == 2
      && ends.points[0] == plain.points[0]
      && ends.points[1].x == plain.points[1].x
      && ends.points[1].y == plain.points[1].y - 2.0 * o.secondGap
  {
  }
}

/** What the small components hand to their design: named geometry rows for the
    `poly` and `path` tables, the options that may be a scalar or a list, the Python
    exceptions their `make` methods can raise, and Python's `str` of a count. */
module Qgeometry {
  import opened Base
  import opened Geometry

  /** One `add_qgeometry` row: its name, the shape, the layer, the subtract flag, and
      the width of a `path` row (`None` for a `poly` row that passes none). */
  datatype Element = Element(name: string, shape: Shape, layer: int, subtract: bool, width: Option<real>)

  /** An option the user may give as a scalar or as a list. */
  datatype Param<T> = Scalar(value: T) | List(items: seq<T>)

  /** The exceptions the components raise. */
  datatype PyError =
    | IndexError
    | ZeroDivisionError
    /** `str + None` */
    | TypeError
    /** the `Exception` `PinPad.make` raises for lists of different lengths */
    | MixedArguments

  /** `if not isinstance(x, list): x = [x]`. */
  function AsList<T>(p: Param<T>): (r: seq<T>)
    ensures p.Scalar? ==> r == [p.value]
    ensures p.List? ==> r == p.items
  {
    match p
    case Scalar(v) => [v]
    case List(xs) => xs
  }

  /** `[x] * 2` for a one-element list; any other list is kept. */
  function ToTwo<T>(l: seq<T>): (r: seq<T>)
    ensures |l| == 1 ==> r == [l[0], l[0]]
    ensures |l| != 1 ==> r == l
  {
    if |l| == 1 then [l[0], l[0]] else l
  }

  /** A list made two long has a second element exactly when it was not empty, and
      holds only the values it had. */
  lemma ToTwoSecond<T>(l: seq<T>)
    ensures |ToTwo(l)| >= 2 <==> |l| >= 1
    ensures forall k :: 0 <= k < |ToTwo(l)| ==> ToTwo(l)[k] in l
  {
  }

  /** The decimal digit for `d`. */
  function DigitChar(d: int): (c: char)
    requires 0 <= d < 10
    ensures '0' <= c <= '9' && c as int - '0' as int == d
  {
    ('0' as int + d) as char
  }

  /** `str(n)` for a non-negative integer: its decimal digits, most significant first. */
  function NatToString(n: nat): (s: string)
    ensures |s| >= 1
    ensures forall i :: 0 <= i < |s| ==> '0' <= s[i] <= '9'
    decreases n
  {
    if n < 10 then [DigitChar(n)] else NatToString(n / 10) + [DigitChar(n % 10)]
  }

  /** The number a string of decimal digits denotes, most significant first. */
  function DecimalValue(s: string): nat
    requires forall i :: 0 <= i < |s| ==> '0' <= s[i] <= '9'
  {
    if |s| == 0 then 0 else DecimalValue(s[..|s| - 1]) * 10 + (s[|s| - 1] as int - '0' as int)
  }

  /** Reading back the digits `str(n)` writes gives `n`. */
  lemma {:induction false} NatToStringRoundTrip(n: nat)
    ensures DecimalValue(NatToString(n)) == n
    decreases n
  {
    if n >= 10 {
      var s := NatToString(n / 10);
      NatToStringRoundTrip(n / 10);
      assert (s + [DigitChar(n % 10)])[..|s|] == s;
    }
  }

  /** Different counts have different strings. */
  lemma NatToStringInjective(m: nat, n: nat)
    requires m != n
    ensures NatToString(m) != NatToString(n)
  {
    NatToStringRoundTrip(m);
    NatToStringRoundTrip(n);
  }
}

/** Small value types and integer/real helpers shared by every component model. */
module Base {

  /** Python's `None` or a value. */
  datatype Option<+T> = None | Some(value: T)

  /** A computation that either yields a value or raises. */
  datatype Result<+T, +E> = Success(value: T) | Failure(error: E)

  function Min(a: real, b: real): (m: real)
    ensures m <= a && m <= b && (m == a || m == b)
  {
    if a <= b then a else b
  }

  function MaxInt(a: int, b: int): (m: int)
    ensures m >= a && m >= b && (m == a || m == b)
  {
    if a >= b then a else b
  }

  function Abs(x: real): (r: real)
    ensures r >= 0.0 && (r == x || r == -x)
  {
    if x >= 0.0 then x else -x
  }

  /** `math.ceil` on a real: the least integer not below `x`. */
  function Ceil(x: real): (c: int)
    ensures c as real - 1.0 < x <= c as real
  {
    -((-x).Floor)
  }

  /** Python's `int(x)` on a real: truncation toward zero. */
  function Trunc(x: real): (t: int)
    ensures x >= 0.0 ==> t as real <= x < t as real + 1.0 && t >= 0
    ensures x < 0.0 ==> t as real - 1.0 < x <= t as real && t <= 0
  {
    if x >= 0.0 then x.Floor else -((-x).Floor)
  }

  /** Python's `a // b` for `b != 0`: the floor of the exact quotient. */
  function FloorDiv(a: int, b: int): (q: int)
    requires b != 0
    ensures b > 0 ==> q * b <= a < q * b + b
    ensures b < 0 ==> q * b >= a > q * b + b
  {
    if b > 0 then a / b else (-a) / (-b)
  }

  /** Python's `range(n)` has `max(n, 0)` elements. */
  function RangeLength(n: int): (k: nat)
    ensures n >= 0 ==> k == n
    ensures n < 0 ==> k == 0
  {
    if n >= 0 then n else 0
  }

  /** A list reversed, as Python's `list.reverse()` leaves it. */
  function Reversed<T>(s: seq<T>): (r: seq<T>)
    ensures |r| == |s|
    ensures forall k :: 0 <= k < |s| ==> r[k] == s[|s| - 1 - k]
  {
    if |s| == 0 then [] else [s[|s| - 1]] + Reversed(s[..|s| - 1])
  }

  /** A prefix one element longer. */
  lemma TakeOneMore<T>(s: seq<T>, j: int)
    requires 0 <= j < |s|
    ensures s[..j + 1] == s[..j] + [s[j]]
    ensures s[..j + 1][..j] == s[..j]
  {
  }

  /** A non-empty list is its prefix without the last element, then that element. */
  lemma SplitLast<T>(s: seq<T>)
    requires |s| >= 1
    ensures s[..|s| - 1] + [s[|s| - 1]] == s
  {
  }

  /** A boundary joined from one side and the other side reversed: the first side in
      order, then the second from its end back to its start. */
  lemma JoinLayout<T>(l: seq<T>, r: seq<T>)
    requires |l| == |r|
    ensures |l + Reversed(r)| == 2 * |l|
    ensures forall i :: 0 <= i < |l| ==> (l + Reversed(r))[i] == l[i]
    ensures forall i :: 0 <= i < |l| ==> (l + Reversed(r))[2 * |l| - 1 - i] == r[i]
  {
  }

  /** Multiplying by a non-negative factor keeps the order. */
  lemma MulMonotone(a: real, b: real, c: real)
    requires a <= b && 0.0 <= c
    ensures a * c <= b * c
  {
    assert b * c - a * c == (b - a) * c;
  }

  /** `k * d`, as `|k|` steps of `d` away from 0. */
  function Multiple(k: int, d: real): real
    decreases if k >= 0 then k else -k
  {
    if k == 0 then 0.0 else if k > 0 then Multiple(k - 1, d) + d else Multiple(k + 1, d) - d
  }

  lemma {:induction false} MultipleIsProduct(k: int, d: real)
    ensures Multiple(k, d) == k as real * d
    decreases if k >= 0 then k else -k
  {
    if k > 0 {
      MultipleIsProduct(k - 1, d);
    } else if k < 0 {
      MultipleIsProduct(k + 1, d);
    }
  }

  /** `k * d`, computed as a product. */
  method Times(k: int, d: real) returns (x: real)
    ensures x == Multiple(k, d)
  {
    x := k as real * d;
    MultipleIsProduct(k, d);
  }
}

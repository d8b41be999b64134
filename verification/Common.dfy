/**
 * Small shared vocabulary: optional values, results for the thrown exceptions,
 * screen points, and the Kotlin numeric conversions the widget relies on.
 */
module Common {

  datatype Option<+T> = None | Some(value: T) {
    /** Kotlin's `?:` with a default. */
    function GetOr(default: T): T {
      match this
      case Some(v) => v
      case None => default
    }
  }

  /** A computation that either yields a value or throws `error`. */
  datatype Result<+T, +E> = Success(value: T) | Failure(error: E)

  /** `android.graphics.Point`, already rounded to whole pixels. */
  datatype Point = Point(x: int, y: int)

  /** A laid-out rectangle (`left`, `top`, `right`, `bottom`) in the parent's coordinates. */
  datatype Frame = Frame(left: int, top: int, right: int, bottom: int)

  function Max(a: int, b: int): int { if a >= b then a else b }

  function Min(a: int, b: int): int { if a <= b then a else b }

  /**
   * Kotlin's `Int / Int`, which truncates toward zero (Dafny's `/` is
   * Euclidean). Only positive divisors occur in the widget.
   */
  function TruncDiv(a: int, b: int): (q: int)
    requires b > 0
    ensures a >= 0 ==> 0 <= a - q * b < b
    ensures a < 0 ==> -b < a - q * b <= 0
  {
    if a >= 0 then a / b else -((-a) / b)
  }

  /** Kotlin's `Float.toInt()`: drops the fraction, rounding toward zero. */
  function Truncate(x: real): (r: int)
    ensures x >= 0.0 ==> r as real <= x < r as real + 1.0
    ensures x < 0.0 ==> r as real - 1.0 < x <= r as real
  {
    if x >= 0.0 then x.Floor else -((-x).Floor)
  }

  /** Kotlin's `Float.roundToInt()`: the nearest integer, halves rounded up. */
  function RoundToInt(x: real): (r: int)
    ensures r as real - 0.5 <= x < r as real + 0.5
  {
    (x + 0.5).Floor
  }

  /**
   * Kotlin's `Iterable.indexOf`: the position of the first element equal to
   * `x`, or -1 when there is none.
   */
  function IndexOf<T(==)>(s: seq<T>, x: T): (r: int)
    ensures -1 <= r < |s|
    ensures r == -1 <==> x !in s
    ensures r >= 0 ==> s[r] == x && forall j :: 0 <= j < r ==> s[j] != x
  {
    if s == [] then -1
    else if s[0] == x then 0
    else
      var k := IndexOf(s[1..], x);
      if k == -1 then -1 else k + 1
  }

  /** No two positions of `s` hold equal elements. */
  predicate Distinct<T(==)>(s: seq<T>) {
    forall i, j :: 0 <= i < j < |s| ==> s[i] != s[j]
  }

  /** In a list without repeats, `indexOf` finds every element at its own position. */
  lemma IndexOfDistinct<T>(s: seq<T>, k: int)
    requires Distinct(s) && 0 <= k < |s|
    ensures IndexOf(s, s[k]) == k
  {
  }
}

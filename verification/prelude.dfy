/** Small shared vocabulary: an optional value and the real-valued min/max/clamp
    helpers that the edge node's arithmetic is written with. */
module Prelude {

  /** A value that may be absent (Python's `None`). */
  datatype Option<+T> = None | Some(value: T)

  /** Python's `min(a, b)` on two numbers. */
  function Min(a: real, b: real): (r: real)
    ensures r <= a && r <= b
    ensures r == a || r == b
  {
    if b < a then b else a
  }

  /** Python's `max(a, b)` on two numbers. */
  function Max(a: real, b: real): (r: real)
    ensures r >= a && r >= b
    ensures r == a || r == b
  {
    if b > a then b else a
  }

  /** Python's `abs(x)`. */
  function Abs(x: real): (r: real)
    ensures r >= 0.0
    ensures r == x || r == -x
  {
    if x < 0.0 then -x else x
  }

  /** `max(lo, min(hi, x))`: the idiom the source uses to keep a value in a range. */
  function Clamp(lo: real, hi: real, x: real): (r: real)
    requires lo <= hi
    ensures lo <= r <= hi
    ensures lo <= x <= hi ==> r == x
    ensures x < lo ==> r == lo
    ensures x > hi ==> r == hi
  {
    Max(lo, Min(hi, x))
  }

  /** Clamping never reverses the order of two values. */
  lemma ClampMonotone(lo: real, hi: real, x: real, y: real)
    requires lo <= hi
    requires x <= y
    ensures Clamp(lo, hi, x) <= Clamp(lo, hi, y)
  {
  }

  /** The last element of a non-empty sequence (Python's `xs[-1]`). */
  function Last<T>(s: seq<T>): (x: T)
    requires |s| > 0
  {
    s[|s| - 1]
  }

  /** Every element of `s` lies in the closed interval [lo, hi]. */
  ghost predicate AllIn(s: seq<real>, lo: real, hi: real) {
    forall i :: 0 <= i < |s| ==> lo <= s[i] <= hi
  }
}

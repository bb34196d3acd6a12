/** Exact-arithmetic stand-ins for the few Python numeric builtins the box uses. */
module Numerics {

  datatype Option<+T> = None | Some(value: T)

  /** Python's truthiness of an optional boolean: `None` counts as false. */
  predicate Truthy(b: Option<bool>) {
    b == Some(true)
  }

  /** Python's `int(x)` on a float: truncation toward zero. */
  function Trunc(x: real): int {
    if x >= 0.0 then x.Floor else -((-x).Floor)
  }

  /** Truncation of a value that is already whole gives that value back. */
  lemma TruncOfInt(n: int)
    ensures Trunc(n as real) == n
  {
  }

  /** Truncation never reverses the order of two values. */
  lemma TruncMonotone(x: real, y: real)
    requires x <= y
    ensures Trunc(x) <= Trunc(y)
  {
  }

  /** Truncating two ordered non-negative values gives two ordered non-negative integers. */
  lemma TruncNonnegMonotone(x: real, y: real)
    requires 0.0 <= x <= y
    ensures 0 <= Trunc(x) <= Trunc(y)
  {
  }

  /** Truncation toward zero is symmetric about zero. */
  lemma TruncOdd(x: real)
    ensures Trunc(-x) == -Trunc(x)
  {
  }

  lemma MulNonneg(a: real, b: real)
    requires 0.0 <= a && 0.0 <= b
    ensures 0.0 <= a * b
  {
  }

  /** A percentage of a span lies between zero and the span itself. */
  lemma PercentOfSpan(span: real, percentage: real)
    requires 0.0 <= percentage <= 100.0
    ensures 0.0 <= span ==> 0.0 <= span * percentage / 100.0 <= span
    ensures span < 0.0 ==> span <= span * percentage / 100.0 <= 0.0
  {
    if 0.0 <= span {
      MulNonneg(span, 100.0 - percentage);
      MulNonneg(span, percentage);
    } else {
      MulNonneg(-span, 100.0 - percentage);
      MulNonneg(-span, percentage);
    }
  }

  /** Python's `abs` on a float. */
  function Abs(x: real): (r: real)
    ensures 0.0 <= r && (r == x || r == -x)
  {
    if x < 0.0 then -x else x
  }

  /** `round(x, 2)`: the nearest multiple of 1/100, halves rounded up. */
  function Round2(x: real): (r: real)
    ensures x - 0.005 < r <= x + 0.005
  {
    (x * 100.0 + 0.5).Floor as real / 100.0
  }

  /** A whole number of degrees is left alone by the two-decimal rounding. */
  lemma Round2OfInt(n: int)
    ensures Round2(n as real) == n as real
  {
    var k := (n as real * 100.0 + 0.5).Floor;
    assert k == n * 100;
  }

  /** Rounding an already rounded value changes nothing. */
  lemma Round2Idempotent(x: real)
    ensures Round2(Round2(x)) == Round2(x)
  {
    var k := (x * 100.0 + 0.5).Floor;
    assert Round2(x) * 100.0 == k as real;
    assert (k as real + 0.5).Floor == k;
  }
}

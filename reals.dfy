/** Small facts about real arithmetic that the model's proofs lean on. */
module Reals {

  function Abs(r: real): (a: real)
    ensures a >= 0.0 && (a == r || a == -r)
  {
    if r < 0.0 then -r else r
  }

  /** `m` lies between `a` and `b`, in either order. */
  predicate Between(a: real, m: real, b: real) {
    (a <= m <= b) || (b <= m <= a)
  }

  lemma MulLe(a: real, b: real, c: real)
    requires a <= b && c >= 0.0
    ensures a * c <= b * c
  {
  }

  /** A fraction in [0, 1] of a non-negative quantity is no larger than it. */
  lemma MulFraction(k: real, b: real)
    requires 0.0 <= k <= 1.0 && b >= 0.0
    ensures 0.0 <= k * b <= b
  {
  }

  /** a/b <= c/d for positive b, d when a*d <= c*b. */
  lemma DivideMonotone(a: real, b: real, c: real, d: real)
    requires b > 0.0 && d > 0.0 && a * d <= c * b
    ensures a / b <= c / d
  {
    assert a / b == (a * d) / (b * d);
    assert c / d == (c * b) / (b * d);
  }

  /** Products of non-negative reals grow with both factors. */
  lemma MulMonotone(a1: real, a2: real, b1: real, b2: real)
    requires 0.0 <= a1 <= a2 && 0.0 <= b1 <= b2
    ensures 0.0 <= a1 * b1 <= a2 * b2
  {
    MulLe(a1, a2, b1);
    assert a2 * b1 <= a2 * b2;
  }

  /** Products of reals strictly between 0 and 1 stay strictly between 0 and 1. */
  lemma MulOpenUnit(a: real, b: real)
    requires 0.0 < a < 1.0 && 0.0 < b < 1.0
    ensures 0.0 < a * b < 1.0
  {
    assert a * b < 1.0 * b;
  }
}

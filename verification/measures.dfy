/** Square roots over the mathematical reals.

    Python's `x ** 0.5` is a floating-point operation; the model never
    computes it. A root is described by its square instead: `r` is the root
    of `x` when `r` is non-negative and `r * r == x`. */
module Measures {

  /** `root` is the non-negative square root of `x`. */
  predicate IsSqrt(root: real, x: real) {
    0.0 <= root && root * root == x
  }

  /** A quantity as the polygon methods produce it: either a value computed
      exactly (a product of sides), or `radicand ** 0.5`. */
  datatype Measure = Exact(value: real) | SqrtOf(radicand: real)

  /** `v` is the real number that `m` stands for. */
  predicate Denotes(m: Measure, v: real) {
    match m
    case Exact(x) => v == x
    case SqrtOf(x) => IsSqrt(v, x)
  }

  /** A non-negative real has at most one non-negative square root. */
  lemma SqrtUnique(r1: real, r2: real, x: real)
    requires IsSqrt(r1, x) && IsSqrt(r2, x)
    ensures r1 == r2
  {
    assert (r1 - r2) * (r1 + r2) == 0.0;
    ZeroProduct(r1 - r2, r1 + r2);
  }

  lemma ZeroProduct(x: real, y: real)
    requires x * y == 0.0
    ensures x == 0.0 || y == 0.0
  {
  }

  lemma MulPos(x: real, y: real)
    requires 0.0 < x && 0.0 < y
    ensures 0.0 < x * y
  {
  }

  lemma MulNonnegNonpos(x: real, y: real)
    requires 0.0 <= x && y <= 0.0
    ensures x * y <= 0.0
  {
  }

  lemma MulNonposNonneg(x: real, y: real)
    requires x <= 0.0 && 0.0 <= y
    ensures x * y <= 0.0
  {
  }

  /** A negative radicand has no real square root: Python returns a complex
      number there, which the model does not represent. */
  lemma NoSqrtOfNegative(r: real, x: real)
    requires x < 0.0
    ensures !IsSqrt(r, x)
  {
    assert 0.0 <= r * r;
  }

  /** A measure stands for at most one real number. */
  lemma DenotesUnique(m: Measure, v1: real, v2: real)
    requires Denotes(m, v1) && Denotes(m, v2)
    ensures v1 == v2
  {
    if m.SqrtOf? {
      SqrtUnique(v1, v2, m.radicand);
    }
  }
}

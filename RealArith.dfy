/** Facts about products and quotients of reals that the solver does not find
    unaided. */
module RealArith {

  lemma MulNonNeg(x: real, y: real)
    requires x >= 0.0 && y >= 0.0
    ensures x * y >= 0.0
  {
  }

  lemma MulPos(x: real, y: real)
    requires x > 0.0 && y > 0.0
    ensures x * y > 0.0
  {
  }

  lemma MulStrictMono(x: real, y: real, c: real)
    requires x < y && c > 0.0
    ensures x * c < y * c
  {
  }

  lemma DivMul(x: real, d: real)
    requires d != 0.0
    ensures (x / d) * d == x
  {
  }

  lemma SquareGrows(d: real, x: real)
    requires 0.0 < d < x
    ensures d * d < x * x
  {
  }

  /** A quotient below `c` when the numerator is below `c` times the
      positive denominator. */
  lemma DivBelow(x: real, d: real, c: real)
    requires d > 0.0 && x < c * d
    ensures x / d < c
  {
  }

  /** A quotient at least `c` when the numerator is at least `c` times the
      positive denominator. */
  lemma DivAtLeast(x: real, d: real, c: real)
    requires d > 0.0 && c * d <= x
    ensures c <= x / d
  {
  }

  /** A quotient at most `c` when the numerator is at most `c` times the
      positive denominator. */
  lemma DivAtMost(x: real, d: real, c: real)
    requires d > 0.0 && x <= c * d
    ensures x / d <= c
  {
  }

  lemma DivNonNeg(x: real, d: real)
    requires x >= 0.0 && d > 0.0
    ensures x / d >= 0.0
  {
  }

  lemma DivPos(x: real, d: real)
    requires x > 0.0 && d > 0.0
    ensures x / d > 0.0
  {
  }

  lemma DivNumMono(a: real, b: real, d: real)
    requires a > b && d > 0.0
    ensures a / d > b / d
  {
  }

  lemma DivDenMono(a: real, d1: real, d2: real)
    requires a > 0.0 && 0.0 < d1 < d2
    ensures a / d1 > a / d2
  {
  }

  lemma ZeroDiv(d: real)
    requires d != 0.0
    ensures 0.0 / d == 0.0
  {
  }
}

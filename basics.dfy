/** Option, for values the source marks as missing with NaN or null. */
module Wrappers {
  datatype Option<+T> = None | Some(value: T)
}

/** Small facts about reals used by every component. */
module RealMath {
  function Abs(a: real): real { if a < 0.0 then -a else a }

  /** Math.max of two numbers. */
  function Max(a: real, b: real): real { if a >= b then a else b }

  /** Math.min of two numbers. */
  function Min(a: real, b: real): real { if a <= b then a else b }

  /** c lies on the closed segment between a and b (in either order). */
  predicate Between(a: real, b: real, c: real) {
    (a <= c <= b) || (b <= c <= a)
  }

  /** Moving a fraction t in [0, 1] of the way from a to b stays between them. */
  lemma BetweenStep(a: real, b: real, t: real)
    requires 0.0 <= t <= 1.0
    ensures Between(a, b, a + (b - a) * t)
  {
  }
}

/** Monotonicity of multiplication, stated once so that nonlinear steps stay small. */
module RealFacts {
  lemma MulNonNegative(a: real, b: real)
    requires a >= 0.0 && b >= 0.0
    ensures a * b >= 0.0
  {
  }

  lemma MulMonotone(a: real, b: real, c: real)
    requires a <= b && c >= 0.0
    ensures a * c <= b * c
  {
    MulNonNegative(b - a, c);
    assert (b - a) * c == b * c - a * c;
  }

  lemma MulStrict(a: real, b: real)
    requires a > 0.0 && b > 0.0
    ensures a * b > 0.0
  {
  }

  lemma MulNonZero(a: real, b: real)
    requires a != 0.0 && b != 0.0
    ensures a * b != 0.0
  {
    if a < 0.0 && b < 0.0 {
      MulStrict(-a, -b);
    } else if a < 0.0 {
      MulStrict(-a, b);
    } else if b < 0.0 {
      MulStrict(a, -b);
    } else {
      MulStrict(a, b);
    }
  }

  /** A product with a positive factor r has the sign of the other factor. */
  lemma SignOfProduct(x: real, r: real)
    requires r > 0.0
    ensures x > 0.0 <==> x * r > 0.0
    ensures x >= 0.0 <==> x * r >= 0.0
  {
    if x > 0.0 {
      MulStrict(x, r);
    } else if x < 0.0 {
      MulStrict(-x, r);
    }
  }

  /** Dividing by a positive r keeps order, and compares against 1 as the numerator compares against r. */
  lemma DivCompare(a: real, b: real, r: real)
    requires r > 0.0
    ensures a <= b ==> a / r <= b / r
    ensures a < b ==> a / r < b / r
    ensures a < r ==> a / r < 1.0
    ensures a <= r ==> a / r <= 1.0
    ensures a >= r ==> a / r >= 1.0
    ensures a >= 0.0 ==> a / r >= 0.0
    ensures a > 0.0 ==> a / r > 0.0
  {
    var qa, qb := a / r, b / r;
    assert qa * r == a && qb * r == b;
    assert (qb - qa) * r == b - a;
    assert (1.0 - qa) * r == r - a;
    assert (qa - 1.0) * r == a - r;
    SignOfProduct(qb - qa, r);
    SignOfProduct(1.0 - qa, r);
    SignOfProduct(qa - 1.0, r);
    SignOfProduct(qa, r);
  }

  lemma DivCancel(c: real, r: real)
    requires r != 0.0
    ensures (c * r) / r == c
  {
    var q := (c * r) / r;
    assert q * r == c * r;
    assert (q - c) * r == q * r - c * r;
    if q != c {
      MulNonZero(q - c, r);
    }
  }
}

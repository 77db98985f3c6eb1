/**
 * Facts about real multiplication and division that the solver does not
 * find on its own; every proof about products of model values goes
 * through them.
 */
module Reals {

  /** A product of two numbers of the same strict sign is positive. */
  lemma ProductPositive(x: real, y: real, r: real)
    requires (x > 0.0 && y > 0.0) || (x < 0.0 && y < 0.0)
    requires r == x * y
    ensures r > 0.0
  {
    if x < 0.0 {
      assert x * y == (-x) * (-y);
    }
  }

  /** r = x * x is non-negative, and positive unless x is 0. */
  lemma Square(x: real, r: real)
    requires r == x * x
    ensures r >= 0.0
    ensures x != 0.0 ==> r > 0.0
  {
    if x != 0.0 {
      ProductPositive(x, x, r);
    }
  }

  /** A product of two non-negative numbers is non-negative. */
  lemma ProductNonNegative(a: real, b: real)
    requires a >= 0.0 && b >= 0.0
    ensures a * b >= 0.0
  {
    if a > 0.0 && b > 0.0 {
      assert a * b > 0.0;
    }
  }

  /** Dividing by a positive number keeps the order. */
  lemma DivideMonotone(x: real, y: real, d: real)
    requires d > 0.0 && x <= y
    ensures x / d <= y / d
  {
    assert y / d - x / d == (y - x) / d;
  }

  /** A quotient of a number in [0, d] by d > 0 lies in [0, 1], and is positive when
      the number is. */
  lemma QuotientInUnit(x: real, d: real)
    requires d > 0.0 && 0.0 <= x <= d
    ensures 0.0 <= x / d <= 1.0
    ensures x > 0.0 ==> x / d > 0.0
  {
    DivideMonotone(x, d, d);
    DivideMonotone(0.0, x, d);
    assert d / d == 1.0;
  }

  /** Scaling a non-negative number by a factor in [0, 1] gives at most that number. */
  lemma ScaleInUnit(lr: real, a: real)
    requires lr >= 0.0 && 0.0 <= a <= 1.0
    ensures 0.0 <= lr * a <= lr
  {
    ProductNonNegative(lr, a);
    ProductNonNegative(lr, 1.0 - a);
  }

  /** Products of equal factors are equal.  The solver needs this stated when
      the factors are different terms that are only proved equal. */
  lemma ProductOfEquals(a: real, b: real, x: real, y: real)
    requires a == x && b == y
    ensures a * b == x * y
  {
  }

  /** A product with a factor proved to be zero is zero. */
  lemma ZeroTimes(a: real, z: real)
    requires z == 0.0
    ensures a * z == 0.0
  {
  }

  /** The absolute value (std::abs). */
  function Abs(x: real): (r: real)
    ensures r >= 0.0 && (r == x || r == -x)
  {
    if x < 0.0 then -x else x
  }

  /** Scaling by a factor in [0, 1] never moves a value away from 0. */
  lemma ShrinkByUnit(a: real, x: real)
    requires 0.0 <= a <= 1.0
    ensures x >= 0.0 ==> 0.0 <= a * x <= x
    ensures x < 0.0 ==> x <= a * x <= 0.0
    ensures -Abs(x) <= a * x <= Abs(x)
  {
    if x >= 0.0 {
      ProductNonNegative(a, x);
      ProductNonNegative(1.0 - a, x);
      assert x - a * x == (1.0 - a) * x;
    } else {
      ProductNonNegative(a, -x);
      ProductNonNegative(1.0 - a, -x);
      assert a * (-x) == -(a * x);
      assert (1.0 - a) * (-x) == a * x - x;
    }
  }
}

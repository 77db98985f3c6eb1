/**
 * The elementary functions the library takes from <cmath>.  They are not
 * defined here: every operation that uses exp, tanh or sqrt receives them
 * as a parameter, together with the facts about them that the proofs rely
 * on.  Integer powers (std::pow with an integer step count) are exact.
 */
module Elementary {

  /** std::exp, std::tanh and std::sqrt. */
  datatype Functions = Functions(exp: real -> real, tanh: real -> real, sqrt: real -> real)

  /** The only facts used about the elementary functions: exp is positive with
      exp(0) = 1, tanh lies strictly between -1 and 1, and sqrt is the
      non-negative square root on non-negative arguments. */
  ghost predicate Sound(f: Functions)
  {
    (forall x :: f.exp(x) > 0.0) &&
    f.exp(0.0) == 1.0 &&
    (forall x :: -1.0 < f.tanh(x) < 1.0) &&
    (forall y :: y >= 0.0 ==> f.sqrt(y) >= 0.0 && f.sqrt(y) * f.sqrt(y) == y)
  }

  /** std::tanh, with its range. */
  function Tanh(f: Functions, x: real): (y: real)
    requires Sound(f)
    ensures -1.0 < y < 1.0
  {
    f.tanh(x)
  }

  /** A positive argument has a positive square root. */
  lemma SqrtPositive(f: Functions, y: real)
    requires Sound(f) && y > 0.0
    ensures f.sqrt(y) > 0.0
  {
    assert f.sqrt(y) * f.sqrt(y) == y;
  }

  /** b raised to the power t. */
  function Pow(b: real, t: nat): real
  {
    if t == 0 then 1.0 else b * Pow(b, t - 1)
  }

  /** For 0 <= b < 1 and t >= 1, b^t lies in [0, 1): the bias-correction
      denominator 1 - b^t is positive and at most 1. */
  lemma {:induction false} PowBelowOne(b: real, t: nat)
    requires 0.0 <= b < 1.0 && t >= 1
    ensures 0.0 <= Pow(b, t) < 1.0
    ensures 0.0 < 1.0 - Pow(b, t) <= 1.0
  {
    if t > 1 {
      PowBelowOne(b, t - 1);
      assert b * Pow(b, t - 1) <= Pow(b, t - 1);
    }
  }
}

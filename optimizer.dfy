/**
 * What the optimizers share: a learning rate, moment tensors that are
 * created on the first update with the parameter's shape and reused
 * afterwards, and exponential moving averages of the gradient.
 * Every update reads and writes param({i}), grad({i}) and the moments with
 * one coordinate, for i below param.size(), so the parameter must be a
 * vector (or empty) and the gradient and moments vectors at least as long.
 */
module Optimizers {
  import opened Tensors
  import opened Reals
  import opened Elementary

  /** The exponential moving average step beta * prev + (1 - beta) * x. */
  function Average(beta: real, prev: real, x: real): real
  {
    beta * prev + (1.0 - beta) * x
  }

  /** For 0 <= beta <= 1 the moving average is a convex combination: it lies between
      the previous value and the new one, so it is non-negative when both are. */
  lemma AverageBetween(beta: real, prev: real, x: real)
    requires 0.0 <= beta <= 1.0
    ensures prev <= x ==> prev <= Average(beta, prev, x) <= x
    ensures x <= prev ==> x <= Average(beta, prev, x) <= prev
    ensures prev >= 0.0 && x >= 0.0 ==> Average(beta, prev, x) >= 0.0
  {
    assert Average(beta, prev, x) == prev + (1.0 - beta) * (x - prev);
    assert Average(beta, prev, x) == x + beta * (prev - x);
    if prev <= x {
      ProductNonNegative(1.0 - beta, x - prev);
      ProductNonNegative(beta, x - prev);
      assert beta * (prev - x) == -(beta * (x - prev));
    } else {
      ProductNonNegative(1.0 - beta, prev - x);
      ProductNonNegative(beta, prev - x);
      assert (1.0 - beta) * (x - prev) == -((1.0 - beta) * (prev - x));
    }
  }

  /** The first n elements of m replaced by their moving average with xs; the rest,
      beyond the parameter's size, untouched. */
  function Averaged(beta: real, m: seq<real>, xs: seq<real>, n: nat): (r: seq<real>)
    requires n <= |m| && n <= |xs|
    ensures |r| == |m|
  {
    seq(|m|, i requires 0 <= i < |m| => if i < n then Average(beta, m[i], xs[i]) else m[i])
  }

  /** g * g for every element. */
  function Squares(g: seq<real>): (r: seq<real>)
    ensures |r| == |g|
  {
    seq(|g|, i requires 0 <= i < |g| => g[i] * g[i])
  }

  lemma SquaresNonNegative(g: seq<real>)
    ensures forall i :: 0 <= i < |g| ==> Squares(g)[i] >= 0.0
  {
    forall i | 0 <= i < |g| ensures Squares(g)[i] >= 0.0 {
      Square(g[i], Squares(g)[i]);
    }
  }

  /** With 0 <= beta <= 1, the moving average of non-negative values stays non-negative
      (the second moment v of AdamW and Nadam). */
  lemma AveragedNonNegative(beta: real, m: seq<real>, xs: seq<real>, n: nat)
    requires n <= |m| && n <= |xs| && 0.0 <= beta <= 1.0
    requires forall i :: 0 <= i < |m| ==> m[i] >= 0.0
    requires forall i :: 0 <= i < |xs| ==> xs[i] >= 0.0
    ensures forall i :: 0 <= i < |m| ==> Averaged(beta, m, xs, n)[i] >= 0.0
  {
    forall i | 0 <= i < n ensures Averaged(beta, m, xs, n)[i] >= 0.0 {
      AverageBetween(beta, m[i], xs[i]);
    }
  }

  /** The moment tensor an update works on: a fresh zero tensor of the parameter's
      shape on the first call (the vector of moments is empty), afterwards the
      stored one. */
  function Moment(ms: seq<Tensor>, shape: seq<nat>): (m: Tensor)
    ensures |ms| == 0 ==> m == Zeros(shape)
    ensures |ms| > 0 ==> m == ms[0]
  {
    if |ms| == 0 then Zeros(shape) else ms[0]
  }

  /** The accessor demands for a parameter, its gradient and a moment in one update. */
  predicate Accessible(param: Tensor, grad: Tensor)
  {
    param.Valid() && FlatIndexable(param) && grad.Valid() && VectorOfAtLeast(grad, |param.data|)
  }

  /** A stored moment (or the one created from the parameter's shape) can be read and
      written at every i < param.size(). */
  predicate MomentFits(ms: seq<Tensor>, param: Tensor)
  {
    |ms| > 0 ==> ms[0].Valid() && VectorOfAtLeast(ms[0], |param.data|)
  }

  /** The lazily created moment fits any parameter it was created for. */
  lemma MomentAccessible(ms: seq<Tensor>, param: Tensor)
    requires param.Valid() && FlatIndexable(param) && MomentFits(ms, param)
    ensures Moment(ms, param.shape).Valid() && VectorOfAtLeast(Moment(ms, param.shape), |param.data|)
  {
    if |ms| == 0 && |param.shape| == 1 {
      Product1(param.shape);
    }
  }

  /** Bias correction: x / (1 - beta^t), for 0 <= beta < 1 and t >= 1 (so the
      denominator lies in (0, 1]). */
  function Corrected(x: real, beta: real, t: nat): real
    requires 0.0 <= beta < 1.0 && t >= 1
  {
    PowBelowOne(beta, t);
    x / (1.0 - Pow(beta, t))
  }

  /** Correction keeps the sign of a non-negative value. */
  lemma CorrectedNonNegative(x: real, beta: real, t: nat)
    requires 0.0 <= beta < 1.0 && t >= 1 && x >= 0.0
    ensures Corrected(x, beta, t) >= 0.0
  {
    PowBelowOne(beta, t);
    var d := 1.0 - Pow(beta, t);
    DivideMonotone(0.0, x, d);
  }

  /** On the first step the correction divides by 1 - beta. */
  lemma CorrectedFirst(x: real, beta: real)
    requires 0.0 <= beta < 1.0
    ensures Corrected(x, beta, 1) == x / (1.0 - beta)
  {
    assert Pow(beta, 1) == beta * Pow(beta, 0);
  }

  /** On the first step from zero moments the corrected averages are exactly the
      gradient and its square: the correction removes the bias towards zero. */
  lemma FirstStepUnbiased(beta1: real, beta2: real, g: real)
    requires 0.0 <= beta1 < 1.0 && 0.0 <= beta2 < 1.0
    ensures Corrected(Average(beta1, 0.0, g), beta1, 1) == g
    ensures Corrected(Average(beta2, 0.0, g * g), beta2, 1) == g * g
  {
    assert Pow(beta1, 1) == beta1 * Pow(beta1, 0);
    assert Pow(beta2, 1) == beta2 * Pow(beta2, 0);
    var d1, d2 := 1.0 - beta1, 1.0 - beta2;
    assert Average(beta1, 0.0, g) == d1 * g;
    assert d1 * g / d1 == g;
    var gg := g * g;
    assert Average(beta2, 0.0, gg) == d2 * gg;
    assert d2 * gg / d2 == gg;
  }
}

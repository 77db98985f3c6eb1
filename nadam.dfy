/**
 * The Nadam optimizer: the same moving averages and bias corrections as
 * AdamW, and a Nesterov-style step whose numerator combines the corrected
 * first moment, divided once more by 1 - beta1^t, with the current
 * gradient.  There is no weight decay.
 */
module NadamOptimizer {
  import opened Tensors
  import opened Elementary
  import opened Optimizers
  import opened Reals

  /** The hyperparameters of a Nadam update. */
  datatype Hyper = Hyper(lr: real, beta1: real, beta2: real, eps: real)
  {
    predicate Valid()
    {
      eps > 0.0 && 0.0 <= beta1 < 1.0 && 0.0 <= beta2 < 1.0
    }
  }

  /** The numerator of the step: beta1 * m_hat / (1 - beta1^t) + (1 - beta1) * g. */
  function Lookahead(beta1: real, t: nat, mHat: real, g: real): real
    requires 0.0 <= beta1 < 1.0 && t >= 1
  {
    Corrected(beta1 * mHat, beta1, t) + (1.0 - beta1) * g
  }

  /** The step on one element: p - lr * numerator / (sqrt(v_hat) + eps). */
  function NesterovStep(f: Functions, lr: real, eps: real, p: real, num: real, vHat: real): real
    requires Sound(f) && eps > 0.0 && vHat >= 0.0
  {
    p - lr * num / (f.sqrt(vHat) + eps)
  }

  /** One parameter element after an update with gradient g and the new moments m, v. */
  function Element(f: Functions, h: Hyper, t: nat, p: real, g: real, m: real, v: real): real
    requires Sound(f) && h.Valid() && t >= 1 && v >= 0.0
  {
    CorrectedNonNegative(v, h.beta2, t);
    NesterovStep(f, h.lr, h.eps, p, Lookahead(h.beta1, t, Corrected(m, h.beta1, t), g), Corrected(v, h.beta2, t))
  }

  /** Every element of p after an update with the gradient and the new moments. */
  function Updated(f: Functions, h: Hyper, t: nat, p: seq<real>, g: seq<real>, m: seq<real>, v: seq<real>): (r: seq<real>)
    requires Sound(f) && h.Valid() && t >= 1 && |g| >= |p| && |m| >= |p| && |v| >= |p|
    requires forall i :: 0 <= i < |p| ==> v[i] >= 0.0
    ensures |r| == |p|
  {
    seq(|p|, i requires 0 <= i < |p| => Element(f, h, t, p[i], g[i], m[i], v[i]))
  }

  /** The loop of update over a parameter, its gradient and the two moments. */
  method Step(f: Functions, h: Hyper, t: nat, param: Tensor, grad: Tensor, m: Tensor, v: Tensor)
    returns (newParam: Tensor, newM: Tensor, newV: Tensor)
    requires Sound(f) && h.Valid() && t >= 1 && Accessible(param, grad)
    requires m.Valid() && VectorOfAtLeast(m, |param.data|)
    requires v.Valid() && VectorOfAtLeast(v, |param.data|)
    requires forall i :: 0 <= i < |v.data| ==> v.data[i] >= 0.0
    ensures newM == Tensor(m.shape, Averaged(h.beta1, m.data, grad.data, |param.data|))
    ensures newV == Tensor(v.shape, Averaged(h.beta2, v.data, Squares(grad.data), |param.data|))
    ensures forall i :: 0 <= i < |newV.data| ==> newV.data[i] >= 0.0
    ensures newParam == Tensor(param.shape, Updated(f, h, t, param.data, grad.data, newM.data, newV.data))
  {
    var n := |param.data|;
    ghost var mSpec := Averaged(h.beta1, m.data, grad.data, n);
    ghost var vSpec := Averaged(h.beta2, v.data, Squares(grad.data), n);
    SquaresNonNegative(grad.data);
    AveragedNonNegative(h.beta2, v.data, Squares(grad.data), n);
    newParam, newM, newV := param, m, v;
    for i := 0 to n
      invariant newParam.shape == param.shape && |newParam.data| == n
      invariant newM.shape == m.shape && |newM.data| == |m.data|
      invariant newV.shape == v.shape && |newV.data| == |v.data|
      invariant forall k :: 0 <= k < i ==> newM.data[k] == mSpec[k] && newV.data[k] == vSpec[k]
      invariant forall k :: i <= k < |m.data| ==> newM.data[k] == m.data[k]
      invariant forall k :: i <= k < |v.data| ==> newV.data[k] == v.data[k]
      invariant forall k :: 0 <= k < i ==> newParam.data[k] == Element(f, h, t, param.data[k], grad.data[k], mSpec[k], vSpec[k])
      invariant forall k :: i <= k < n ==> newParam.data[k] == param.data[k]
    {
      var g := Get1(grad, i);
      var mi := Get1(newM, i);
      newM := Set1(newM, i, Average(h.beta1, mi, g));
      var vi := Get1(newV, i);
      assert Squares(grad.data)[i] == g * g;
      newV := Set1(newV, i, Average(h.beta2, vi, g * g));
      var mNew := Get1(newM, i);
      var vNew := Get1(newV, i);
      assert mNew == mSpec[i] && vNew == vSpec[i];
      var mHat := Corrected(mNew, h.beta1, t);
      CorrectedNonNegative(vNew, h.beta2, t);
      var vHat := Corrected(vNew, h.beta2, t);
      var p := Get1(newParam, i);
      newParam := Set1(newParam, i, NesterovStep(f, h.lr, h.eps, p, Lookahead(h.beta1, t, mHat, g), vHat));
    }
    assert newM.data == mSpec;
    assert newV.data == vSpec;
    assert newParam.data == Updated(f, h, t, param.data, grad.data, mSpec, vSpec);
  }

  class Nadam {
    const hyper: Hyper
    var m: seq<Tensor>
    var v: seq<Tensor>
    var t: nat

    /** The moment vectors are both empty or both hold one tensor, and the second
        moment is never negative. */
    predicate Valid()
      reads this
    {
      hyper.Valid() && |m| == |v| && |m| <= 1 &&
      (|v| == 1 ==> forall i :: 0 <= i < |v[0].data| ==> v[0].data[i] >= 0.0)
    }

    /** Defaults in the header: beta1 = 0.9, beta2 = 0.999, epsilon = 1e-8. */
    constructor(learningRate: real, beta1: real, beta2: real, epsilon: real)
      requires Hyper(learningRate, beta1, beta2, epsilon).Valid()
      ensures Valid() && hyper == Hyper(learningRate, beta1, beta2, epsilon)
      ensures m == [] && v == [] && t == 0
    {
      hyper := Hyper(learningRate, beta1, beta2, epsilon);
      m := [];
      v := [];
      t := 0;
    }

    /** Creates the moments on the first call, counts the step, then runs the loop. */
    method Update(f: Functions, param: Tensor, grad: Tensor) returns (updated: Tensor)
      requires Sound(f) && Valid() && Accessible(param, grad)
      requires MomentFits(m, param) && MomentFits(v, param)
      modifies this
      ensures Valid() && |m| == 1 && |v| == 1
      ensures t == old(t) + 1
      ensures var m0 := Moment(old(m), param.shape);
        m[0] == Tensor(m0.shape, Averaged(hyper.beta1, m0.data, grad.data, |param.data|))
      ensures var v0 := Moment(old(v), param.shape);
        v[0] == Tensor(v0.shape, Averaged(hyper.beta2, v0.data, Squares(grad.data), |param.data|))
      ensures updated == Tensor(param.shape, Updated(f, hyper, t, param.data, grad.data, m[0].data, v[0].data))
    {
      MomentAccessible(m, param);
      MomentAccessible(v, param);
      if |m| == 0 {
        m := [Zeros(param.shape)];
        v := [Zeros(param.shape)];
      }
      t := t + 1;
      var newM, newV;
      updated, newM, newV := Step(f, hyper, t, param, grad, m[0], v[0]);
      m := [newM];
      v := [newV];
    }
  }

  // ---------------------------------------------------------------------
  // Properties

  /** With learning rate 0 the parameter is unchanged, while the moments still move. */
  lemma ZeroRateKeepsParam(f: Functions, h: Hyper, t: nat, p: seq<real>, g: seq<real>, m: seq<real>, v: seq<real>)
    requires Sound(f) && h.Valid() && h.lr == 0.0 && t >= 1 && |g| >= |p| && |m| >= |p| && |v| >= |p|
    requires forall i :: 0 <= i < |p| ==> v[i] >= 0.0
    ensures Updated(f, h, t, p, g, m, v) == p
  {
    forall i | 0 <= i < |p| ensures Updated(f, h, t, p, g, m, v)[i] == p[i] {
      CorrectedNonNegative(v[i], h.beta2, t);
      var vHat := Corrected(v[i], h.beta2, t);
      var num := Lookahead(h.beta1, t, Corrected(m[i], h.beta1, t), g[i]);
      assert NesterovStep(f, 0.0, h.eps, p[i], num, vHat) == p[i];
    }
  }

  /** On the first update from zero moments m_hat is the gradient g itself
      (Optimizers.FirstStepUnbiased), and the numerator is then
      beta1 * g / (1 - beta1) + (1 - beta1) * g: the first moment is corrected
      twice while the gradient term is not corrected. */
  lemma FirstUpdateNumerator(beta1: real, g: real)
    requires 0.0 <= beta1 < 1.0
    ensures Lookahead(beta1, 1, g, g) == beta1 * g / (1.0 - beta1) + (1.0 - beta1) * g
  {
    CorrectedFirst(beta1 * g, beta1);
  }

  /** With beta1 = 0 the step is g / (sqrt(v_hat) + eps), as in plain RMS scaling. */
  lemma NoMomentum(t: nat, mHat: real, g: real)
    requires t >= 1
    ensures Lookahead(0.0, t, mHat, g) == g
  {
    assert Pow(0.0, t) == 0.0 * Pow(0.0, t - 1) == 0.0;
    assert 0.0 * mHat == 0.0;
    assert Corrected(0.0 * mHat, 0.0, t) == 0.0 / (1.0 - 0.0);
  }
}

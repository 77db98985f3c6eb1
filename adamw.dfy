/**
 * The AdamW optimizer: moving averages m of the gradient and v of its
 * square, created as zero tensors of the parameter's shape on the first
 * update; bias-corrected estimates m_hat and v_hat; an adaptive step, and
 * then weight decay applied to the value that step produced.
 */
module AdamWOptimizer {
  import opened Tensors
  import opened Elementary
  import opened Optimizers
  import opened Reals

  /** The adaptive step on one element: p - lr * m_hat / (sqrt(v_hat) + eps). */
  function AdaptiveStep(f: Functions, lr: real, eps: real, p: real, mHat: real, vHat: real): real
    requires Sound(f) && eps > 0.0 && vHat >= 0.0
  {
    p - lr * mHat / (f.sqrt(vHat) + eps)
  }

  /** Weight decay on one element: p - lr * wd * p. */
  function Decayed(lr: real, wd: real, p: real): real
  {
    p - lr * wd * p
  }

  /** The hyperparameters of an AdamW update; t is the step count after increment. */
  datatype Hyper = Hyper(lr: real, beta1: real, beta2: real, eps: real, wd: real)
  {
    predicate Valid()
    {
      eps > 0.0 && 0.0 <= beta1 < 1.0 && 0.0 <= beta2 < 1.0
    }
  }

  /** One parameter element after an update with the new moments m and v. */
  function Element(f: Functions, h: Hyper, t: nat, p: real, m: real, v: real): real
    requires Sound(f) && h.Valid() && t >= 1 && v >= 0.0
  {
    CorrectedNonNegative(v, h.beta2, t);
    Decayed(h.lr, h.wd, AdaptiveStep(f, h.lr, h.eps, p, Corrected(m, h.beta1, t), Corrected(v, h.beta2, t)))
  }

  /** Every element of p after an update with the moments m and v. */
  function Updated(f: Functions, h: Hyper, t: nat, p: seq<real>, m: seq<real>, v: seq<real>): (r: seq<real>)
    requires Sound(f) && h.Valid() && t >= 1 && |m| >= |p| && |v| >= |p|
    requires forall i :: 0 <= i < |p| ==> v[i] >= 0.0
    ensures |r| == |p|
  {
    seq(|p|, i requires 0 <= i < |p| => Element(f, h, t, p[i], m[i], v[i]))
  }

  /** The loop of update over a parameter, its gradient and the two moments. */
  method Step(f: Functions, h: Hyper, t: nat, param: Tensor, grad: Tensor, m: Tensor, v: Tensor)
    returns (newParam: Tensor, newM: Tensor, newV: Tensor)
    requires Sound(f) && h.Valid() && t >= 1 && Accessible(param, grad)
    requires m.Valid() && VectorOfAtLeast(m, |param.data|)
    requires v.Valid() && VectorOfAtLeast(v, |param.data|)
    requires forall i :: 0 <= i < |v.data| ==> v.data[i] >= 0.0
    ensures newM == Tensor(m.shape, Averaged(h.beta1, m.data, grad.data, |param.data|))
    ensures newV == Tensor(v.shape, Averaged(h.beta2, v.data, Squares(grad.data), |param.data|))
    ensures forall i :: 0 <= i < |newV.data| ==> newV.data[i] >= 0.0
    ensures newParam == Tensor(param.shape, Updated(f, h, t, param.data, newM.data, newV.data))
  {
    var n := |param.data|;
    ghost var mSpec := Averaged(h.beta1, m.data, grad.data, n);
    ghost var vSpec := Averaged(h.beta2, v.data, Squares(grad.data), n);
    SquaresNonNegative(grad.data);
    AveragedNonNegative(h.beta2, v.data, Squares(grad.data), n);
    newParam, newM, newV := param, m, v;
    for i := 0 to n
      invariant newParam.shape == param.shape && |newParam.data| == n
      invariant newM.shape == m.shape && |newM.data| == |m.data|
      invariant newV.shape == v.shape && |newV.data| == |v.data|
      invariant forall k :: 0 <= k < i ==> newM.data[k] == mSpec[k] && newV.data[k] == vSpec[k]
      invariant forall k :: i <= k < |m.data| ==> newM.data[k] == m.data[k]
      invariant forall k :: i <= k < |v.data| ==> newV.data[k] == v.data[k]
      invariant forall k :: 0 <= k < i ==> newParam.data[k] == Element(f, h, t, param.data[k], mSpec[k], vSpec[k])
      invariant forall k :: i <= k < n ==> newParam.data[k] == param.data[k]
    {
      var g := Get1(grad, i);
      var mi := Get1(newM, i);
      newM := Set1(newM, i, Average(h.beta1, mi, g));
      var vi := Get1(newV, i);
      // (1 - beta2) * grad * grad, the moving average of the squared gradient
      assert Squares(grad.data)[i] == g * g;
      newV := Set1(newV, i, Average(h.beta2, vi, g * g));
      var mNew := Get1(newM, i);
      var vNew := Get1(newV, i);
      assert mNew == mSpec[i] && vNew == vSpec[i];
      var mHat := Corrected(mNew, h.beta1, t);
      CorrectedNonNegative(vNew, h.beta2, t);
      var vHat := Corrected(vNew, h.beta2, t);
      var p := Get1(newParam, i);
      newParam := Set1(newParam, i, AdaptiveStep(f, h.lr, h.eps, p, mHat, vHat));
      var stepped := Get1(newParam, i);
      newParam := Set1(newParam, i, Decayed(h.lr, h.wd, stepped));
    }
    assert newM.data == mSpec;
    assert newV.data == vSpec;
    assert newParam.data == Updated(f, h, t, param.data, mSpec, vSpec);
  }

  class AdamW {
    const hyper: Hyper
    var m: seq<Tensor>
    var v: seq<Tensor>
    var t: nat

    /** The moment vectors are both empty or both hold one tensor, and the second
        moment is never negative. */
    predicate Valid()
      reads this
    {
      hyper.Valid() && |m| == |v| && |m| <= 1 &&
      (|v| == 1 ==> forall i :: 0 <= i < |v[0].data| ==> v[0].data[i] >= 0.0)
    }

    /** Defaults in the header: beta1 = 0.9, beta2 = 0.999, epsilon = 1e-8,
        weight_decay = 0.01. */
    constructor(learningRate: real, beta1: real, beta2: real, epsilon: real, weightDecay: real)
      requires Hyper(learningRate, beta1, beta2, epsilon, weightDecay).Valid()
      ensures Valid() && hyper == Hyper(learningRate, beta1, beta2, epsilon, weightDecay)
      ensures m == [] && v == [] && t == 0
    {
      hyper := Hyper(learningRate, beta1, beta2, epsilon, weightDecay);
      m := [];
      v := [];
      t := 0;
    }

    /** Creates the moments on the first call, counts the step, then runs the loop. */
    method Update(f: Functions, param: Tensor, grad: Tensor) returns (updated: Tensor)
      requires Sound(f) && Valid() && Accessible(param, grad)
      requires MomentFits(m, param) && MomentFits(v, param)
      modifies this
      ensures Valid() && |m| == 1 && |v| == 1
      ensures t == old(t) + 1
      ensures var m0 := Moment(old(m), param.shape);
        m[0] == Tensor(m0.shape, Averaged(hyper.beta1, m0.data, grad.data, |param.data|))
      ensures var v0 := Moment(old(v), param.shape);
        v[0] == Tensor(v0.shape, Averaged(hyper.beta2, v0.data, Squares(grad.data), |param.data|))
      ensures updated == Tensor(param.shape, Updated(f, hyper, t, param.data, m[0].data, v[0].data))
    {
      MomentAccessible(m, param);
      MomentAccessible(v, param);
      if |m| == 0 {
        m := [Zeros(param.shape)];
        v := [Zeros(param.shape)];
      }
      t := t + 1;
      var newM, newV;
      updated, newM, newV := Step(f, hyper, t, param, grad, m[0], v[0]);
      m := [newM];
      v := [newV];
    }
  }

  // ---------------------------------------------------------------------
  // Properties

  /** Weight decay acts on the value the adaptive step produced: the element is that
      value times (1 - lr * wd). */
  lemma DecayAfterStep(f: Functions, h: Hyper, t: nat, p: real, m: real, v: real)
    requires Sound(f) && h.Valid() && t >= 1 && v >= 0.0
    ensures Corrected(v, h.beta2, t) >= 0.0
    ensures Element(f, h, t, p, m, v) ==
      (1.0 - h.lr * h.wd) * AdaptiveStep(f, h.lr, h.eps, p, Corrected(m, h.beta1, t), Corrected(v, h.beta2, t))
  {
    CorrectedNonNegative(v, h.beta2, t);
  }

  /** With learning rate 0 the parameter is unchanged, while the moments still move. */
  lemma ZeroRateKeepsParam(f: Functions, h: Hyper, t: nat, p: seq<real>, m: seq<real>, v: seq<real>)
    requires Sound(f) && h.Valid() && h.lr == 0.0 && t >= 1 && |m| >= |p| && |v| >= |p|
    requires forall i :: 0 <= i < |p| ==> v[i] >= 0.0
    ensures Updated(f, h, t, p, m, v) == p
  {
    forall i | 0 <= i < |p| ensures Updated(f, h, t, p, m, v)[i] == p[i] {
      CorrectedNonNegative(v[i], h.beta2, t);
      var mHat, vHat := Corrected(m[i], h.beta1, t), Corrected(v[i], h.beta2, t);
      assert AdaptiveStep(f, 0.0, h.eps, p[i], mHat, vHat) == p[i];
    }
  }

  /** The first update from zero moments: m_hat is the gradient and v_hat its square,
      so the adaptive step is lr * g / (|g| + eps) in size. */
  lemma FirstUpdate(f: Functions, h: Hyper, p: real, g: real)
    requires Sound(f) && h.Valid()
    ensures Average(h.beta2, 0.0, g * g) >= 0.0
    ensures Element(f, h, 1, p, Average(h.beta1, 0.0, g), Average(h.beta2, 0.0, g * g)) ==
      Decayed(h.lr, h.wd, p - h.lr * g / (f.sqrt(g * g) + h.eps))
  {
    Square(g, g * g);
    AverageBetween(h.beta2, 0.0, g * g);
    FirstStepUnbiased(h.beta1, h.beta2, g);
    CorrectedNonNegative(Average(h.beta2, 0.0, g * g), h.beta2, 1);
  }
}

/**
 * The Adamax optimizer: a moving average m of the gradient and an
 * exponentially weighted infinity norm u (u = max(beta2 * u, |g|)), both
 * created as zero tensors of the parameter's shape on the first update.
 * The step counter t is incremented but takes no part in the update: there
 * is no bias correction.
 */
module AdamaxOptimizer {
  import opened Tensors
  import opened Optimizers
  import opened Reals

  /** std::max. */
  function Larger(a: real, b: real): (r: real)
    ensures r >= a && r >= b && (r == a || r == b)
  {
    if a < b then b else a
  }

  /** One element of the infinity-norm moment: max(beta2 * u, |g|), which dominates
      both |g| (so it is non-negative) and the decayed previous value. */
  function Peak(beta2: real, u: real, g: real): (r: real)
    ensures r >= Abs(g) >= 0.0 && r >= beta2 * u
    ensures r == Abs(g) || r == beta2 * u
  {
    Larger(beta2 * u, Abs(g))
  }

  /** The first n elements of u replaced by their peaks; the rest untouched. */
  function Peaks(beta2: real, u: seq<real>, g: seq<real>, n: nat): (r: seq<real>)
    requires n <= |u| && n <= |g|
    ensures |r| == |u|
    ensures forall i :: 0 <= i < n ==> r[i] >= Abs(g[i])
  {
    seq(|u|, i requires 0 <= i < |u| => if i < n then Peak(beta2, u[i], g[i]) else u[i])
  }

  /** One parameter element after the step: p - lr * m / (u + eps), with u + eps > 0. */
  function Descend(lr: real, eps: real, p: real, m: real, u: real): real
    requires eps > 0.0 && u >= 0.0
  {
    p - lr * m / (u + eps)
  }

  /** Every element of p stepped with its moments. */
  function Stepped(lr: real, eps: real, p: seq<real>, m: seq<real>, u: seq<real>): (r: seq<real>)
    requires eps > 0.0 && |m| >= |p| && |u| >= |p|
    requires forall i :: 0 <= i < |p| ==> u[i] >= 0.0
    ensures |r| == |p|
  {
    seq(|p|, i requires 0 <= i < |p| => Descend(lr, eps, p[i], m[i], u[i]))
  }

  /** The loop of update over a parameter, its gradient and the two moments. */
  method Step(lr: real, beta1: real, beta2: real, eps: real, param: Tensor, grad: Tensor, m: Tensor, u: Tensor)
    returns (newParam: Tensor, newM: Tensor, newU: Tensor)
    requires eps > 0.0 && Accessible(param, grad)
    requires m.Valid() && VectorOfAtLeast(m, |param.data|)
    requires u.Valid() && VectorOfAtLeast(u, |param.data|)
    ensures newM == Tensor(m.shape, Averaged(beta1, m.data, grad.data, |param.data|))
    ensures newU == Tensor(u.shape, Peaks(beta2, u.data, grad.data, |param.data|))
    ensures newParam == Tensor(param.shape, Stepped(lr, eps, param.data, newM.data, newU.data))
  {
    var n := |param.data|;
    ghost var mSpec := Averaged(beta1, m.data, grad.data, n);
    ghost var uSpec := Peaks(beta2, u.data, grad.data, n);
    newParam, newM, newU := param, m, u;
    for i := 0 to n
      invariant newParam.shape == param.shape && |newParam.data| == n
      invariant newM.shape == m.shape && |newM.data| == |m.data|
      invariant newU.shape == u.shape && |newU.data| == |u.data|
      invariant forall k :: 0 <= k < i ==> newM.data[k] == mSpec[k] && newU.data[k] == uSpec[k]
      invariant forall k :: i <= k < |m.data| ==> newM.data[k] == m.data[k]
      invariant forall k :: i <= k < |u.data| ==> newU.data[k] == u.data[k]
      invariant forall k :: 0 <= k < i ==> newParam.data[k] == Descend(lr, eps, param.data[k], mSpec[k], uSpec[k])
      invariant forall k :: i <= k < n ==> newParam.data[k] == param.data[k]
    {
      var g := Get1(grad, i);
      var mi := Get1(newM, i);
      newM := Set1(newM, i, Average(beta1, mi, g));
      var ui := Get1(newU, i);
      newU := Set1(newU, i, Peak(beta2, ui, g));
      var mNew := Get1(newM, i);
      var uNew := Get1(newU, i);
      assert mNew == mSpec[i] && uNew == uSpec[i];
      var p := Get1(newParam, i);
      newParam := Set1(newParam, i, Descend(lr, eps, p, mNew, uNew));
    }
    assert newM.data == mSpec;
    assert newU.data == uSpec;
    assert newParam.data == Stepped(lr, eps, param.data, mSpec, uSpec);
  }

  class Adamax {
    const learningRate: real
    const beta1: real
    const beta2: real
    const epsilon: real
    var m: seq<Tensor>
    var u: seq<Tensor>
    var t: nat

    /** The moment vectors are both empty or both hold one tensor. */
    predicate Valid()
      reads this
    {
      epsilon > 0.0 && |m| == |u| && |m| <= 1
    }

    /** Defaults in the header: beta1 = 0.9, beta2 = 0.999, epsilon = 1e-8. */
    constructor(learningRate: real, beta1: real, beta2: real, epsilon: real)
      requires epsilon > 0.0
      ensures Valid()
      ensures this.learningRate == learningRate && this.beta1 == beta1 && this.beta2 == beta2 && this.epsilon == epsilon
      ensures m == [] && u == [] && t == 0
    {
      this.learningRate := learningRate;
      this.beta1 := beta1;
      this.beta2 := beta2;
      this.epsilon := epsilon;
      m := [];
      u := [];
      t := 0;
    }

    /** Creates the moments on the first call, counts the step, then runs the loop. */
    method Update(param: Tensor, grad: Tensor) returns (updated: Tensor)
      requires Valid() && Accessible(param, grad)
      requires MomentFits(m, param) && MomentFits(u, param)
      modifies this
      ensures Valid() && |m| == 1 && |u| == 1
      ensures t == old(t) + 1
      ensures var m0 := Moment(old(m), param.shape);
        m[0] == Tensor(m0.shape, Averaged(beta1, m0.data, grad.data, |param.data|))
      ensures var u0 := Moment(old(u), param.shape);
        u[0] == Tensor(u0.shape, Peaks(beta2, u0.data, grad.data, |param.data|))
      ensures updated == Tensor(param.shape, Stepped(learningRate, epsilon, param.data, m[0].data, u[0].data))
    {
      MomentAccessible(m, param);
      MomentAccessible(u, param);
      if |m| == 0 {
        m := [Zeros(param.shape)];
        u := [Zeros(param.shape)];
      }
      t := t + 1;
      var newM, newU;
      updated, newM, newU := Step(learningRate, beta1, beta2, epsilon, param, grad, m[0], u[0]);
      m := [newM];
      u := [newU];
    }
  }

  // ---------------------------------------------------------------------
  // Properties

  /** With learning rate 0 the parameter is unchanged (the moments still move). */
  lemma ZeroRateKeepsParam(eps: real, p: seq<real>, m: seq<real>, u: seq<real>)
    requires eps > 0.0 && |m| >= |p| && |u| >= |p|
    requires forall i :: 0 <= i < |p| ==> u[i] >= 0.0
    ensures Stepped(0.0, eps, p, m, u) == p
  {
  }

  /** The step taken by one element is lr * m / (u + eps); when |m| <= u it is at
      most lr in size, whatever the gradients were. */
  lemma DescendBounded(lr: real, eps: real, p: real, m: real, u: real)
    requires eps > 0.0 && u >= 0.0 && lr >= 0.0 && Abs(m) <= u
    ensures Abs(p - Descend(lr, eps, p, m, u)) <= lr
  {
    var d := u + eps;
    var a := Abs(m) / d;
    QuotientInUnit(Abs(m), d);
    ScaleInUnit(lr, a);
    var step := lr * a;
    assert 0.0 <= step <= lr;
    var delta := p - Descend(lr, eps, p, m, u);
    assert delta == lr * m / d;
    if m < 0.0 {
      assert lr * m / d == -step;
    } else {
      assert lr * m / d == step;
    }
    assert delta == step || delta == -step;
  }
}

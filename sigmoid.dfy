/**
 * The Sigmoid activation layer.  forward maps every element through the
 * logistic function and caches its OUTPUT; backward multiplies the gradient
 * by out * (1 - out), the slope of the logistic function written in terms of
 * its value.  Softmax's backward reuses that elementwise rule.
 */
module SigmoidLayer {
  import opened Tensors
  import opened Elementary
  import opened NNUtils
  import opened Reals

  /** The forward output: sigmoid of every element, with the input's shape. */
  function Activated(f: Functions, t: Tensor): (r: Tensor)
    requires Sound(f) && t.Valid()
    ensures r.Valid() && r.shape == t.shape
  {
    Tensor(t.shape, seq(|t.data|, i requires 0 <= i < |t.data| => Sigmoid(f, t.data[i])))
  }

  /** out * (1 - out) for an output value out. */
  function Slope(out: real): real
  {
    out * (1.0 - out)
  }

  /** grad[i] * out[i] * (1 - out[i]), with the shape of the cached output. */
  function SlopeGated(out: Tensor, grad: Tensor): (r: Tensor)
    requires out.Valid() && |grad.data| >= |out.data|
    ensures r.Valid() && r.shape == out.shape
  {
    Tensor(out.shape, seq(|out.data|, i requires 0 <= i < |out.data| => grad.data[i] * out.data[i] * (1.0 - out.data[i])))
  }

  /** forward's loop: output({i}) = 1 / (1 + exp(-input({i}))). */
  method Activate(f: Functions, input: Tensor) returns (output: Tensor)
    requires Sound(f) && input.Valid() && FlatIndexable(input)
    ensures output == Activated(f, input)
  {
    output := New(input.shape);
    for i := 0 to |input.data|
      invariant output.shape == input.shape && |output.data| == |input.data|
      invariant forall k :: 0 <= k < i ==> output.data[k] == Sigmoid(f, input.data[k])
    {
      var x := Get1(input, i);
      output := Set1(output, i, Sigmoid(f, x));
    }
  }

  /** backward's loop, shared with Softmax: grad_input({i}) = grad_output({i}) * o * (1 - o)
      where o = output_cache({i}). */
  method SlopeGate(out: Tensor, grad: Tensor) returns (gradInput: Tensor)
    requires out.Valid() && FlatIndexable(out)
    requires grad.Valid() && VectorOfAtLeast(grad, |out.data|)
    ensures gradInput == SlopeGated(out, grad)
  {
    gradInput := New(out.shape);
    for i := 0 to |out.data|
      invariant gradInput.shape == out.shape && |gradInput.data| == |out.data|
      invariant forall k :: 0 <= k < i ==> gradInput.data[k] == grad.data[k] * out.data[k] * (1.0 - out.data[k])
    {
      var o := Get1(out, i);
      var g := Get1(grad, i);
      gradInput := Set1(gradInput, i, g * o * (1.0 - o));
    }
    ghost var spec := SlopeGated(out, grad);
    assert forall k :: 0 <= k < |out.data| ==> spec.data[k] == grad.data[k] * out.data[k] * (1.0 - out.data[k]);
    assert gradInput.data == spec.data;
  }

  class SigmoidActivation {
    var outputCache: Tensor

    /** The cache starts as Tensor({}): rank 0, one zero element. */
    constructor()
      ensures outputCache == Zeros([])
    {
      outputCache := Zeros([]);
    }

    /** Caches the output, not the input. */
    method Forward(f: Functions, input: Tensor) returns (output: Tensor)
      requires Sound(f) && input.Valid() && FlatIndexable(input)
      modifies this
      ensures output == Activated(f, input)
      ensures outputCache == output
    {
      output := Activate(f, input);
      outputCache := output;
    }

    /** learning_rate is ignored; nothing changes. */
    method Backward(grad: Tensor, learningRate: real) returns (gradInput: Tensor)
      requires outputCache.Valid() && FlatIndexable(outputCache)
      requires grad.Valid() && VectorOfAtLeast(grad, |outputCache.data|)
      ensures gradInput == SlopeGated(outputCache, grad)
    {
      gradInput := SlopeGate(outputCache, grad);
    }
  }

  // ---------------------------------------------------------------------
  // Properties

  /** Every forward output lies strictly between 0 and 1. */
  lemma ActivatedInUnitInterval(f: Functions, t: Tensor)
    requires Sound(f) && t.Valid()
    ensures forall i :: 0 <= i < |t.data| ==> 0.0 < Activated(f, t).data[i] < 1.0
  {
    forall i | 0 <= i < |t.data| ensures 0.0 < Activated(f, t).data[i] < 1.0 {
      var y := Sigmoid(f, t.data[i]);
      assert Activated(f, t).data[i] == y;
    }
  }

  /** For 0 < out < 1 the slope out * (1 - out) lies in (0, 1/4]. */
  lemma SlopeBounds(out: real)
    requires 0.0 < out < 1.0
    ensures 0.0 < Slope(out) <= 0.25
  {
    var r := out * (1.0 - out);
    ProductPositive(out, 1.0 - out, r);
    var d := out - 0.5;
    var dd := d * d;
    Square(d, dd);
    assert r == 0.25 - dd;
  }

  /** After forward, backward scales each gradient element by a factor in (0, 1/4]:
      the sign of the gradient is kept and its size shrinks at least fourfold. */
  lemma BackwardAfterForward(f: Functions, t: Tensor, grad: Tensor)
    requires Sound(f) && t.Valid() && |grad.data| >= |t.data|
    ensures forall i :: 0 <= i < |t.data| ==>
      var s := Slope(Activated(f, t).data[i]);
      0.0 < s <= 0.25 && SlopeGated(Activated(f, t), grad).data[i] == grad.data[i] * s
  {
    var out := Activated(f, t);
    forall i | 0 <= i < |t.data|
      ensures 0.0 < Slope(out.data[i]) <= 0.25
      ensures SlopeGated(out, grad).data[i] == grad.data[i] * Slope(out.data[i])
    {
      ActivatedInUnitInterval(f, t);
      SlopeBounds(out.data[i]);
      var o, g := out.data[i], grad.data[i];
      assert g * o * (1.0 - o) == g * (o * (1.0 - o));
    }
  }

  /** sigmoid(0) = 0.5, elementwise. */
  lemma ActivatedAtZero(f: Functions)
    requires Sound(f)
    ensures Activated(f, Tensor([1], [0.0])).data == [0.5]
  {
    Product1([1]);
    SigmoidAtZero(f);
  }
}

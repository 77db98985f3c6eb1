/**
 * The ReLU activation layer.  forward caches its input and clamps every
 * element at 0 (std::max(0, x), the same function as NNUtils.Relu);
 * backward passes the gradient through where the cached input is positive.
 * Both passes visit the elements with one coordinate, so they accept rank-1
 * tensors (or empty ones) only.
 */
module ReluLayer {
  import opened Tensors
  import opened NNUtils

  /** The forward output: relu of every element, with the input's shape. */
  function Rectified(t: Tensor): (r: Tensor)
    requires t.Valid()
    ensures r.Valid() && r.shape == t.shape
  {
    Tensor(t.shape, seq(|t.data|, i requires 0 <= i < |t.data| => Relu(t.data[i])))
  }

  /** The backward output: grad[i] * relu_derivative(cache[i]), with the cache's shape. */
  function Gated(cache: Tensor, grad: Tensor): (r: Tensor)
    requires cache.Valid() && |grad.data| >= |cache.data|
    ensures r.Valid() && r.shape == cache.shape
  {
    Tensor(cache.shape, seq(|cache.data|, i requires 0 <= i < |cache.data| => grad.data[i] * ReluDerivative(cache.data[i])))
  }

  /** forward's loop: output({i}) = max(0, input({i})). */
  method Rectify(input: Tensor) returns (output: Tensor)
    requires input.Valid() && FlatIndexable(input)
    ensures output == Rectified(input)
  {
    output := New(input.shape);
    for i := 0 to |input.data|
      invariant output.shape == input.shape && |output.data| == |input.data|
      invariant forall k :: 0 <= k < i ==> output.data[k] == Relu(input.data[k])
    {
      var x := Get1(input, i);
      output := Set1(output, i, if 0.0 < x then x else 0.0);
    }
  }

  /** backward's loop: grad_input({i}) = grad_output({i}) * (input_cache({i}) > 0 ? 1 : 0). */
  method Gate(cache: Tensor, grad: Tensor) returns (gradInput: Tensor)
    requires cache.Valid() && FlatIndexable(cache)
    requires grad.Valid() && VectorOfAtLeast(grad, |cache.data|)
    ensures gradInput == Gated(cache, grad)
  {
    gradInput := New(cache.shape);
    for i := 0 to |cache.data|
      invariant gradInput.shape == cache.shape && |gradInput.data| == |cache.data|
      invariant forall k :: 0 <= k < i ==> gradInput.data[k] == grad.data[k] * ReluDerivative(cache.data[k])
    {
      var g := Get1(grad, i);
      var x := Get1(cache, i);
      gradInput := Set1(gradInput, i, g * (if x > 0.0 then 1.0 else 0.0));
    }
  }

  class ReLU {
    var inputCache: Tensor

    /** The cache starts as Tensor({}): rank 0, one zero element. */
    constructor()
      ensures inputCache == Zeros([])
    {
      inputCache := Zeros([]);
    }

    method Forward(input: Tensor) returns (output: Tensor)
      requires input.Valid() && FlatIndexable(input)
      modifies this
      ensures inputCache == input
      ensures output == Rectified(input)
    {
      inputCache := input;
      output := Rectify(input);
    }

    /** learning_rate is ignored; nothing changes. */
    method Backward(grad: Tensor, learningRate: real) returns (gradInput: Tensor)
      requires inputCache.Valid() && FlatIndexable(inputCache)
      requires grad.Valid() && VectorOfAtLeast(grad, |inputCache.data|)
      ensures gradInput == Gated(inputCache, grad)
    {
      gradInput := Gate(inputCache, grad);
    }
  }

  // ---------------------------------------------------------------------
  // Properties

  /** Every forward output is non-negative, equals the input where the input is
      positive and is 0 elsewhere. */
  lemma RectifiedValues(t: Tensor)
    requires t.Valid()
    ensures forall i :: 0 <= i < |t.data| ==> Rectified(t).data[i] >= 0.0
    ensures forall i :: 0 <= i < |t.data| ==> Rectified(t).data[i] == (if t.data[i] > 0.0 then t.data[i] else 0.0)
  {
  }

  /** forward applied to its own output changes nothing. */
  lemma RectifiedIdempotent(t: Tensor)
    requires t.Valid()
    ensures Rectified(Rectified(t)) == Rectified(t)
  {
    var r := Rectified(t);
    forall i | 0 <= i < |r.data| ensures Rectified(r).data[i] == r.data[i] {
      ReluIdempotent(t.data[i]);
    }
  }

  /** backward passes grad[i] where the cached input is positive and 0 elsewhere,
      including where the cached input is exactly 0. */
  lemma GatedValues(cache: Tensor, grad: Tensor)
    requires cache.Valid() && |grad.data| >= |cache.data|
    ensures forall i :: 0 <= i < |cache.data| && cache.data[i] > 0.0 ==> Gated(cache, grad).data[i] == grad.data[i]
    ensures forall i :: 0 <= i < |cache.data| && cache.data[i] <= 0.0 ==> Gated(cache, grad).data[i] == 0.0
  {
  }

  /** The forward output is the input gated by its own derivative mask. */
  lemma RectifiedIsSelfGated(t: Tensor)
    requires t.Valid()
    ensures Rectified(t) == Gated(t, t)
  {
    forall i | 0 <= i < |t.data| ensures Rectified(t).data[i] == Gated(t, t).data[i] {
      ReluIsGated(t.data[i]);
    }
  }

  /** forward on [-1, 0, 2] gives [0, 0, 2], and backward of ones gives [0, 0, 1]. */
  lemma Example()
    ensures Rectified(Tensor([3], [-1.0, 0.0, 2.0])) == Tensor([3], [0.0, 0.0, 2.0])
    ensures Gated(Tensor([3], [-1.0, 0.0, 2.0]), Tensor([3], [1.0, 1.0, 1.0])) == Tensor([3], [0.0, 0.0, 1.0])
  {
    var x := Tensor([3], [-1.0, 0.0, 2.0]);
    Product1(x.shape);
    assert Rectified(x).data == [0.0, 0.0, 2.0];
    assert Gated(x, Tensor([3], [1.0, 1.0, 1.0])).data == [0.0, 0.0, 1.0];
  }
}

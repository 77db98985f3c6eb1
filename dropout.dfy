/**
 * The Dropout layer.  Construction rejects a rate outside [0, 1).  forward
 * draws a fresh mask of the input's shape, one uniform draw in [0, 1) per
 * element (the draws are an input here), dropping an element when its draw
 * is below the rate and scaling the kept ones by 1 / (1 - rate); the output
 * and, later, the gradient are multiplied by that mask.
 */
module DropoutLayer {
  import opened Tensors

  /** The constructor's check: the rate must lie in [0, 1). */
  predicate RateAccepted(rate: real)
  {
    0.0 <= rate < 1.0
  }

  /** One mask entry: 0 for a dropped element, 1 / (1 - rate) for a kept one. */
  function MaskEntry(rate: real, draw: real): (m: real)
    requires RateAccepted(rate)
    ensures draw < rate ==> m == 0.0
    ensures draw >= rate ==> m * (1.0 - rate) == 1.0
  {
    if draw < rate then 0.0 else 1.0 / (1.0 - rate)
  }

  /** The mask forward draws for a tensor of a shape from the first draws. */
  function MaskFor(rate: real, shape: seq<nat>, draws: seq<real>): (m: Tensor)
    requires RateAccepted(rate) && |draws| >= Product(shape)
    ensures m.Valid() && m.shape == shape
  {
    Tensor(shape, seq(Product(shape), i requires 0 <= i < Product(shape) => MaskEntry(rate, draws[i])))
  }

  /** t[i] * mask[i] for every element of t, with t's shape. */
  function Masked(t: Tensor, mask: Tensor): (r: Tensor)
    requires t.Valid() && |mask.data| >= |t.data|
    ensures r.Valid() && r.shape == t.shape
  {
    Tensor(t.shape, seq(|t.data|, i requires 0 <= i < |t.data| => t.data[i] * mask.data[i]))
  }

  /** forward's first loop: mask = Tensor(shape), then mask({i}) from the i-th draw. */
  method DrawMask(rate: real, input: Tensor, draws: seq<real>) returns (mask: Tensor)
    requires RateAccepted(rate) && input.Valid() && FlatIndexable(input)
    requires |draws| >= |input.data|
    ensures mask == MaskFor(rate, input.shape, draws)
  {
    mask := New(input.shape);
    for i := 0 to |mask.data|
      invariant mask.shape == input.shape && |mask.data| == |input.data|
      invariant forall k :: 0 <= k < i ==> mask.data[k] == MaskEntry(rate, draws[k])
    {
      mask := Set1(mask, i, if draws[i] < rate then 0.0 else 1.0 / (1.0 - rate));
    }
  }

  /** The loop shared by forward and backward: result({i}) = t({i}) * mask({i}). */
  method ApplyMask(t: Tensor, mask: Tensor) returns (r: Tensor)
    requires t.Valid() && FlatIndexable(t)
    requires mask.Valid() && VectorOfAtLeast(mask, |t.data|)
    ensures r == Masked(t, mask)
  {
    r := New(t.shape);
    for i := 0 to |t.data|
      invariant r.shape == t.shape && |r.data| == |t.data|
      invariant forall k :: 0 <= k < i ==> r.data[k] == t.data[k] * mask.data[k]
    {
      var x := Get1(t, i);
      var m := Get1(mask, i);
      r := Set1(r, i, x * m);
    }
    ghost var spec := Masked(t, mask);
    assert forall k :: 0 <= k < |t.data| ==> spec.data[k] == t.data[k] * mask.data[k];
    assert r.data == spec.data;
  }

  class Dropout {
    const rate: real
    var mask: Tensor

    /** The mask starts as Tensor({}): rank 0, one zero element. */
    constructor(rate: real)
      requires RateAccepted(rate)
      ensures this.rate == rate && mask == Zeros([])
    {
      this.rate := rate;
      mask := Zeros([]);
    }

    /** A new mask of the input's shape from the draws, then input * mask. */
    method Forward(input: Tensor, draws: seq<real>) returns (output: Tensor)
      requires RateAccepted(rate) && input.Valid() && FlatIndexable(input)
      requires |draws| >= |input.data|
      modifies this
      ensures mask == MaskFor(rate, input.shape, draws)
      ensures output == Masked(input, mask)
    {
      mask := DrawMask(rate, input, draws);
      output := ApplyMask(input, mask);
    }

    /** grad * mask with the most recent mask; learning_rate is ignored and the mask
        is kept, so repeated calls agree. */
    method Backward(grad: Tensor, learningRate: real) returns (gradInput: Tensor)
      requires grad.Valid() && FlatIndexable(grad)
      requires mask.Valid() && VectorOfAtLeast(mask, |grad.data|)
      ensures gradInput == Masked(grad, mask)
    {
      gradInput := ApplyMask(grad, mask);
    }
  }

  /** The constructor as a whole: InvalidConfiguration (std::invalid_argument) for a
      rate outside [0, 1), otherwise a fresh layer with that rate. */
  method NewDropout(rate: real) returns (r: Result<Dropout>)
    ensures r.Err? <==> !RateAccepted(rate)
    ensures r.Err? ==> r.error == InvalidConfiguration
    ensures r.Ok? ==> fresh(r.value) && r.value.rate == rate && r.value.mask == Zeros([])
  {
    if rate < 0.0 || rate >= 1.0 {
      return Err(InvalidConfiguration);
    }
    var layer := new Dropout(rate);
    r := Ok(layer);
  }

  // ---------------------------------------------------------------------
  // Properties

  /** 1.0 and -0.1 are rejected; 0 and 0.5 are accepted. */
  lemma RateExamples()
    ensures !RateAccepted(1.0) && !RateAccepted(-0.1)
    ensures RateAccepted(0.0) && RateAccepted(0.5)
  {
  }

  /** Every mask entry is 0 or 1 / (1 - rate), and kept entries times the keep
      probability give 1 (inverted dropout). */
  lemma MaskValues(rate: real, shape: seq<nat>, draws: seq<real>)
    requires RateAccepted(rate) && |draws| >= Product(shape)
    ensures forall i :: 0 <= i < Product(shape) ==>
      var m := MaskFor(rate, shape, draws).data[i];
      (draws[i] < rate <==> m == 0.0) && (draws[i] >= rate ==> m == 1.0 / (1.0 - rate))
  {
    forall i | 0 <= i < Product(shape)
      ensures var m := MaskFor(rate, shape, draws).data[i];
        (draws[i] < rate <==> m == 0.0) && (draws[i] >= rate ==> m == 1.0 / (1.0 - rate))
    {
      var m := MaskFor(rate, shape, draws).data[i];
      assert m == MaskEntry(rate, draws[i]);
      if draws[i] >= rate {
        assert m * (1.0 - rate) == 1.0;
      }
    }
  }

  /** With rate 0 and draws in [0, 1), every mask entry is 1 and forward returns its
      input unchanged. */
  lemma RateZeroIsIdentity(input: Tensor, draws: seq<real>)
    requires input.Valid() && |draws| >= |input.data|
    requires forall i :: 0 <= i < |draws| ==> 0.0 <= draws[i] < 1.0
    ensures forall i :: 0 <= i < |input.data| ==> MaskFor(0.0, input.shape, draws).data[i] == 1.0
    ensures Masked(input, MaskFor(0.0, input.shape, draws)) == input
  {
    var mask := MaskFor(0.0, input.shape, draws);
    forall i | 0 <= i < |input.data| ensures mask.data[i] == 1.0 {
      assert mask.data[i] == MaskEntry(0.0, draws[i]);
    }
    assert Masked(input, mask).data == input.data;
  }
}

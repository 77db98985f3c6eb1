/**
 * The Softmax activation layer.  forward finds the largest element, takes
 * exp(x - max) of every element while accumulating their sum, divides by
 * the sum, and caches the output.  backward is the elementwise rule
 * grad * out * (1 - out) shared with the Sigmoid layer (the diagonal of
 * the Jacobian only).
 */
module SoftmaxLayer {
  import opened Sums
  import opened Tensors
  import opened Elementary
  import opened NNUtils
  import opened Reals
  import opened SigmoidLayer

  /** exp(x - m) for every element x. */
  function Exponentials(f: Functions, s: seq<real>, m: real): (e: seq<real>)
    ensures |e| == |s|
  {
    seq(|s|, i requires 0 <= i < |s| => f.exp(s[i] - m))
  }

  /** Exponentials are positive, and so is their sum when there is one. */
  lemma ExponentialsPositive(f: Functions, s: seq<real>, m: real)
    requires Sound(f)
    ensures forall i :: 0 <= i < |s| ==> Exponentials(f, s, m)[i] > 0.0
    ensures |s| > 0 ==> Sum(Exponentials(f, s, m)) > 0.0
  {
    var e := Exponentials(f, s, m);
    forall i | 0 <= i < |s| ensures e[i] > 0.0 {
      assert e[i] == f.exp(s[i] - m);
    }
    if |s| > 0 {
      SumPositive(e, 0);
    }
  }

  /** The forward output: exp(x - max) / sum of exp(y - max), with the input's shape. */
  function Probabilities(f: Functions, t: Tensor): (r: Tensor)
    requires Sound(f) && t.Valid() && |t.data| > 0
    ensures r.Valid() && r.shape == t.shape
  {
    var e := Exponentials(f, t.data, Max(t.data));
    ExponentialsPositive(f, t.data, Max(t.data));
    Tensor(t.shape, seq(|e|, i requires 0 <= i < |e| => e[i] / Sum(e)))
  }

  /** The first loop: max_val starts at input({0}) and keeps any larger element. */
  method Maximum(t: Tensor) returns (m: real)
    requires t.Valid() && |t.shape| == 1 && |t.data| > 0
    ensures m == Max(t.data)
  {
    m := Get1(t, 0);
    assert t.data[..1] == [t.data[0]];
    for i := 1 to |t.data|
      invariant m == Max(t.data[..i])
    {
      assert t.data[..i + 1][..i] == t.data[..i];
      var x := Get1(t, i);
      if x > m {
        m := x;
      }
    }
    assert t.data[..|t.data|] == t.data;
  }

  /** The second loop: output({i}) = exp(input({i}) - max_val), then sum_exp += output({i}). */
  method Exponentiate(f: Functions, t: Tensor, m: real) returns (e: Tensor, total: real)
    requires t.Valid() && FlatIndexable(t)
    ensures e == Tensor(t.shape, Exponentials(f, t.data, m))
    ensures total == Sum(Exponentials(f, t.data, m))
  {
    ghost var spec := Exponentials(f, t.data, m);
    e := New(t.shape);
    total := 0.0;
    for i := 0 to |t.data|
      invariant e.shape == t.shape && |e.data| == |t.data|
      invariant forall k :: 0 <= k < i ==> e.data[k] == spec[k]
      invariant total == Sum(spec[..i])
    {
      var x := Get1(t, i);
      e := Set1(e, i, f.exp(x - m));
      var y := Get1(e, i);
      SumStep(spec, i);
      total := total + y;
    }
    assert e.data == spec;
    assert spec[..|t.data|] == spec;
  }

  /** The third loop: output({i}) /= sum_exp. */
  method DivideAll(e: Tensor, total: real) returns (r: Tensor)
    requires e.Valid() && FlatIndexable(e) && total != 0.0
    ensures r == Tensor(e.shape, seq(|e.data|, i requires 0 <= i < |e.data| => e.data[i] / total))
  {
    r := e;
    for i := 0 to |e.data|
      invariant r.shape == e.shape && |r.data| == |e.data|
      invariant forall k :: 0 <= k < i ==> r.data[k] == e.data[k] / total
      invariant forall k :: i <= k < |e.data| ==> r.data[k] == e.data[k]
    {
      var x := Get1(r, i);
      r := Set1(r, i, x / total);
    }
  }

  /** forward without the cache: the three loops in order. */
  method Softmaxed(f: Functions, input: Tensor) returns (output: Tensor)
    requires Sound(f) && input.Valid() && |input.shape| == 1 && |input.data| > 0
    ensures output == Probabilities(f, input)
  {
    var m := Maximum(input);
    var e, total := Exponentiate(f, input, m);
    ExponentialsPositive(f, input.data, m);
    output := DivideAll(e, total);
  }

  class Softmax {
    var outputCache: Tensor

    /** The cache starts as Tensor({}): rank 0, one zero element. */
    constructor()
      ensures outputCache == Zeros([])
    {
      outputCache := Zeros([]);
    }

    /** Reads input({0}) first, so the input must be a non-empty vector. */
    method Forward(f: Functions, input: Tensor) returns (output: Tensor)
      requires Sound(f) && input.Valid() && |input.shape| == 1 && |input.data| > 0
      modifies this
      ensures output == Probabilities(f, input)
      ensures outputCache == output
    {
      output := Softmaxed(f, input);
      outputCache := output;
    }

    /** The elementwise rule of the Sigmoid layer on the cached output; learning_rate
        is ignored and nothing changes. */
    method Backward(grad: Tensor, learningRate: real) returns (gradInput: Tensor)
      requires outputCache.Valid() && FlatIndexable(outputCache)
      requires grad.Valid() && VectorOfAtLeast(grad, |outputCache.data|)
      ensures gradInput == SlopeGated(outputCache, grad)
    {
      gradInput := SlopeGate(outputCache, grad);
    }
  }

  // ---------------------------------------------------------------------
  // Properties

  /** Every exponent x - max is at most 0, and it is 0 at a largest element. */
  lemma ExponentsNonPositive(s: seq<real>)
    requires |s| > 0
    ensures forall i :: 0 <= i < |s| ==> s[i] - Max(s) <= 0.0
    ensures exists i :: 0 <= i < |s| && s[i] - Max(s) == 0.0
  {
    MaxIsGreatest(s);
  }

  /** Dividing every element by d divides the sum by d. */
  lemma {:induction false} SumDivided(s: seq<real>, d: real)
    requires d != 0.0
    ensures Sum(seq(|s|, i requires 0 <= i < |s| => s[i] / d)) == Sum(s) / d
  {
    SumShiftScale(s, 0.0, d);
    assert ShiftScaled(s, 0.0, d) == seq(|s|, i requires 0 <= i < |s| => s[i] / d);
    assert (Sum(s) - (|s| as real) * 0.0) == Sum(s);
  }

  /** The outputs sum to 1. */
  lemma ProbabilitiesSumToOne(f: Functions, t: Tensor)
    requires Sound(f) && t.Valid() && |t.data| > 0
    ensures Sum(Probabilities(f, t).data) == 1.0
  {
    var e := Exponentials(f, t.data, Max(t.data));
    ExponentialsPositive(f, t.data, Max(t.data));
    SumDivided(e, Sum(e));
  }

  /** Every output lies in (0, 1]. */
  lemma ProbabilitiesInUnitInterval(f: Functions, t: Tensor)
    requires Sound(f) && t.Valid() && |t.data| > 0
    ensures forall i :: 0 <= i < |t.data| ==> 0.0 < Probabilities(f, t).data[i] <= 1.0
  {
    var e := Exponentials(f, t.data, Max(t.data));
    ExponentialsPositive(f, t.data, Max(t.data));
    var total := Sum(e);
    var p := Probabilities(f, t);
    forall i | 0 <= i < |t.data| ensures 0.0 < p.data[i] <= 1.0 {
      assert p.data[i] == e[i] / total;
      SumAtLeastTerm(e, i);
      QuotientInUnit(e[i], total);
    }
  }

  /** After forward, backward multiplies each gradient element by a factor in [0, 1/4]. */
  lemma BackwardAfterForward(f: Functions, t: Tensor, grad: Tensor)
    requires Sound(f) && t.Valid() && |t.data| > 0 && |grad.data| >= |t.data|
    ensures forall i :: 0 <= i < |t.data| ==>
      var s := Slope(Probabilities(f, t).data[i]);
      0.0 <= s <= 0.25 && SlopeGated(Probabilities(f, t), grad).data[i] == grad.data[i] * s
  {
    var p := Probabilities(f, t);
    ProbabilitiesInUnitInterval(f, t);
    forall i | 0 <= i < |t.data|
      ensures 0.0 <= Slope(p.data[i]) <= 0.25
      ensures SlopeGated(p, grad).data[i] == grad.data[i] * Slope(p.data[i])
    {
      var o, g := p.data[i], grad.data[i];
      if o < 1.0 {
        SlopeBounds(o);
      } else {
        assert Slope(o) == 0.0;
      }
      assert g * o * (1.0 - o) == g * (o * (1.0 - o));
    }
  }
}

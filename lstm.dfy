/**
 * The LSTM cell.  The layer keeps four (input_size + hidden_size)-by-
 * hidden_size weight matrices and four hidden_size bias vectors (forget,
 * input and output gates and the cell candidate), the last input, and the
 * hidden and cell states h_prev and c_prev.  forward concatenates the input
 * with h_prev, computes the gates from that vector, and overwrites the two
 * states; backward recomputes the gates from the cached input and the
 * current h_prev, forms the gate deltas, and moves all eight parameters.
 *
 * As written, every gate is `combined.dot(W) + b` with a rank-1 combined,
 * and dot demands two rank-2 operands, so forward and backward both end in
 * an exception (ForwardAsWritten, BackwardAsWritten).  The corrected cell
 * reads that product as the vector-by-matrix product of the Dense layer
 * (Dense.Affine), and each grad_gate.dot(W.transpose()) as Dense.BackProjected.
 */
module LSTMLayer {
  import opened Sums
  import opened Tensors
  import opened Elementary
  import opened NNUtils
  import opened Reals
  import opened SigmoidLayer
  import opened Dense

  // ---------------------------------------------------------------------
  // Vectors and the elementwise operators

  /** A vector of exactly n elements. */
  predicate Vector(t: Tensor, n: nat)
  {
    t.Valid() && t.shape == [n] && |t.data| == n
  }

  /** operator* on two tensors of one shape. */
  function Multiplied(a: Tensor, b: Tensor): (r: Tensor)
    requires a.Valid() && b.Valid() && a.shape == b.shape
    ensures r.Valid() && r.shape == a.shape && |r.data| == |a.data|
    ensures forall i {:trigger r.data[i]} :: 0 <= i < |r.data| ==> r.data[i] == a.data[i] * b.data[i]
  {
    Pointwise(Times, a, b).value
  }

  /** operator+ on two tensors of one shape. */
  function Added(a: Tensor, b: Tensor): (r: Tensor)
    requires a.Valid() && b.Valid() && a.shape == b.shape
    ensures r.Valid() && r.shape == a.shape && |r.data| == |a.data|
    ensures forall i {:trigger r.data[i]} :: 0 <= i < |r.data| ==> r.data[i] == a.data[i] + b.data[i]
  {
    Pointwise(Plus, a, b).value
  }

  /** 1 - t, the operator taking an int and a tensor. */
  function Complement(t: Tensor): (r: Tensor)
    requires t.Valid()
    ensures r.Valid() && r.shape == t.shape && |r.data| == |t.data|
    ensures forall i {:trigger r.data[i]} :: 0 <= i < |r.data| ==> r.data[i] == 1.0 - t.data[i]
  {
    Tensor(t.shape, seq(|t.data|, i requires 0 <= i < |t.data| => 1.0 - t.data[i]))
  }

  /** ScalarMinus(1, t) computes Complement(t). */
  method OneMinus(t: Tensor) returns (r: Tensor)
    requires t.Valid() && FlatIndexable(t)
    ensures r == Complement(t)
  {
    r := ScalarMinus(1, t);
    assert r.data == Complement(t).data;
  }

  /** The tanh helper's result: std::tanh of every element, each in (-1, 1). */
  function Hyperbolic(f: Functions, t: Tensor): (r: Tensor)
    requires Sound(f) && t.Valid()
    ensures r.Valid() && r.shape == t.shape && |r.data| == |t.data|
    ensures forall i :: 0 <= i < |r.data| ==> -1.0 < r.data[i] < 1.0
  {
    Tensor(t.shape, seq(|t.data|, i requires 0 <= i < |t.data| => Tanh(f, t.data[i])))
  }

  /** The tanh helper's loop: result({i}) = std::tanh(x({i})). */
  method HyperbolicTangent(f: Functions, x: Tensor) returns (r: Tensor)
    requires Sound(f) && x.Valid() && FlatIndexable(x)
    ensures r == Hyperbolic(f, x)
  {
    r := New(x.shape);
    for i := 0 to |x.data|
      invariant r.shape == x.shape && |r.data| == |x.data|
      invariant forall k :: 0 <= k < i ==> r.data[k] == Tanh(f, x.data[k])
    {
      var v := Get1(x, i);
      r := Set1(r, i, Tanh(f, v));
    }
  }

  // ---------------------------------------------------------------------
  // The combined vector

  /** combined: the input followed by the previous hidden state. */
  function Joined(x: seq<real>, h: seq<real>): (r: Tensor)
    ensures Vector(r, |x| + |h|)
    ensures r.data[..|x|] == x && r.data[|x|..] == h
  {
    Product1([|x| + |h|]);
    Tensor([|x| + |h|], x + h)
  }

  /** The two concatenation loops: combined({i}) = input({i}) for i < n, then
      combined({n + i}) = h_prev({i}) for i < p. */
  method Concatenate(x: Tensor, h: Tensor, n: nat, p: nat) returns (combined: Tensor)
    requires x.Valid() && VectorOfAtLeast(x, n) && h.Valid() && VectorOfAtLeast(h, p)
    ensures combined == Joined(x.data[..n], h.data[..p])
  {
    combined := New([n + p]);
    Product1([n + p]);
    for i := 0 to n
      invariant combined.shape == [n + p] && |combined.data| == n + p
      invariant forall k :: 0 <= k < i ==> combined.data[k] == x.data[k]
    {
      var v := Get1(x, i);
      combined := Set1(combined, i, v);
    }
    for i := 0 to p
      invariant combined.shape == [n + p] && |combined.data| == n + p
      invariant forall k :: 0 <= k < n ==> combined.data[k] == x.data[k]
      invariant forall k :: 0 <= k < i ==> combined.data[n + k] == h.data[k]
    {
      var v := Get1(h, i);
      combined := Set1(combined, n + i, v);
    }
    assert combined.data == x.data[..n] + h.data[..p];
  }

  // ---------------------------------------------------------------------
  // Parameters and gates

  /** The eight parameter tensors. */
  datatype Parameters = Parameters(wf: Tensor, wi: Tensor, wo: Tensor, wc: Tensor,
                                   bf: Tensor, bi: Tensor, bo: Tensor, bc: Tensor)
  {
    /** Four rows-by-h weight matrices and four h-element bias vectors. */
    predicate Valid(rows: nat, h: nat)
    {
      Weight(wf, rows, h) && Weight(wi, rows, h) && Weight(wo, rows, h) && Weight(wc, rows, h) &&
      Vector(bf, h) && Vector(bi, h) && Vector(bo, h) && Vector(bc, h)
    }
  }

  predicate Weight(w: Tensor, rows: nat, h: nat)
  {
    IsMatrix(w) && w.shape == [rows, h] && |w.data| == rows * h
  }

  /** One tensor per gate: forget, input, output, and the cell candidate. */
  datatype Gates = Gates(forget: Tensor, input: Tensor, output: Tensor, candidate: Tensor)

  predicate Shaped(g: Gates, h: nat)
  {
    Vector(g.forget, h) && Vector(g.input, h) && Vector(g.output, h) && Vector(g.candidate, h)
  }

  /** The three sigmoid gates lie in (0, 1), the candidate in (-1, 1). */
  predicate InRange(g: Gates)
  {
    (forall i :: 0 <= i < |g.forget.data| ==> 0.0 < g.forget.data[i] < 1.0) &&
    (forall i :: 0 <= i < |g.input.data| ==> 0.0 < g.input.data[i] < 1.0) &&
    (forall i :: 0 <= i < |g.output.data| ==> 0.0 < g.output.data[i] < 1.0) &&
    (forall i :: 0 <= i < |g.candidate.data| ==> -1.0 < g.candidate.data[i] < 1.0)
  }

  /** ft, it, ot = sigmoid(combined * W + b) and ct = tanh(combined * Wc + bc). */
  function GatesOf(f: Functions, p: Parameters, x: seq<real>, h: nat): (g: Gates)
    requires Sound(f) && p.Valid(|x|, h)
    ensures Shaped(g, h) && InRange(g)
  {
    Product1([h]);
    Gates(Activated(f, Affine(x, p.wf, p.bf)), Activated(f, Affine(x, p.wi, p.bi)),
          Activated(f, Affine(x, p.wo, p.bo)), Hyperbolic(f, Affine(x, p.wc, p.bc)))
  }

  /** The four gate computations on the combined vector. */
  method GatesFrom(f: Functions, p: Parameters, x: Tensor, h: nat) returns (g: Gates)
    requires Sound(f) && x.Valid() && |x.shape| == 1 && p.Valid(|x.data|, h)
    ensures g == GatesOf(f, p, x.data, h)
  {
    var zf := AffineMap(x, p.wf, p.bf);
    var ft := Activate(f, zf);
    var zi := AffineMap(x, p.wi, p.bi);
    var it := Activate(f, zi);
    var zo := AffineMap(x, p.wo, p.bo);
    var ot := Activate(f, zo);
    var zc := AffineMap(x, p.wc, p.bc);
    var ct := HyperbolicTangent(f, zc);
    g := Gates(ft, it, ot, ct);
  }

  // ---------------------------------------------------------------------
  // The state update

  /** c_next = ft * c_prev + it * ct. */
  function CellNext(g: Gates, c: Tensor): (r: Tensor)
    requires g.forget.Valid() && g.input.Valid() && g.candidate.Valid() && c.Valid()
    requires g.forget.shape == c.shape && g.input.shape == c.shape && g.candidate.shape == c.shape
    ensures r.Valid() && r.shape == c.shape && |r.data| == |c.data|
    ensures forall i :: 0 <= i < |r.data| ==>
      r.data[i] == g.forget.data[i] * c.data[i] + g.input.data[i] * g.candidate.data[i]
  {
    Added(Multiplied(g.forget, c), Multiplied(g.input, g.candidate))
  }

  /** h_next = ot * tanh(c_next). */
  function HiddenNext(f: Functions, g: Gates, cNext: Tensor): (r: Tensor)
    requires Sound(f) && g.output.Valid() && cNext.Valid() && g.output.shape == cNext.shape
    ensures r.Valid() && r.shape == cNext.shape && |r.data| == |cNext.data|
  {
    Multiplied(g.output, Hyperbolic(f, cNext))
  }

  method CellStep(g: Gates, c: Tensor, h: nat) returns (cNext: Tensor)
    requires Shaped(g, h) && Vector(c, h)
    ensures cNext == CellNext(g, c)
  {
    var a := Multiply(g.forget, c);
    var b := Multiply(g.input, g.candidate);
    var s := Add(a.value, b.value);
    cNext := s.value;
  }

  method HiddenStep(f: Functions, g: Gates, cNext: Tensor, h: nat) returns (hNext: Tensor)
    requires Sound(f) && Shaped(g, h) && Vector(cNext, h)
    ensures hNext == HiddenNext(f, g, cNext)
  {
    var th := HyperbolicTangent(f, cNext);
    var m := Multiply(g.output, th);
    hNext := m.value;
  }

  // ---------------------------------------------------------------------
  // The gate deltas

  /** a * b * (1 - e * e): an incoming gradient a, scaled by b, through a tanh whose
      output is e (grad_c_next and grad_ct). */
  function TanhDelta(a: Tensor, b: Tensor, e: Tensor, h: nat): (r: Tensor)
    requires Vector(a, h) && Vector(b, h) && Vector(e, h)
    ensures Vector(r, h)
    ensures forall i :: 0 <= i < h ==> r.data[i] == a.data[i] * b.data[i] * (1.0 - e.data[i] * e.data[i])
  {
    var r := Multiplied(Multiplied(a, b), Complement(Multiplied(e, e)));
    assert forall i :: 0 <= i < h ==> r.data[i] == a.data[i] * b.data[i] * (1.0 - e.data[i] * e.data[i]) by {
      forall i | 0 <= i < h ensures r.data[i] == a.data[i] * b.data[i] * (1.0 - e.data[i] * e.data[i]) {
        TanhDeltaAt(a, b, e, h, i);
      }
    }
    r
  }

  /** a * b * gate * (1 - gate): an incoming gradient a, scaled by b, through a
      sigmoid gate, whose slope is gate * (1 - gate) (grad_ft, grad_it, grad_ot). */
  function SigmoidDelta(a: Tensor, b: Tensor, gate: Tensor, h: nat): (r: Tensor)
    requires Vector(a, h) && Vector(b, h) && Vector(gate, h)
    ensures Vector(r, h)
    ensures forall i :: 0 <= i < h ==> r.data[i] == a.data[i] * b.data[i] * Slope(gate.data[i])
  {
    var r := Multiplied(Multiplied(Multiplied(a, b), gate), Complement(gate));
    assert forall i :: 0 <= i < h ==> r.data[i] == a.data[i] * b.data[i] * Slope(gate.data[i]) by {
      forall i | 0 <= i < h ensures r.data[i] == a.data[i] * b.data[i] * Slope(gate.data[i]) {
        SigmoidDeltaAt(a, b, gate, h, i);
      }
    }
    r
  }

  lemma TanhDeltaAt(a: Tensor, b: Tensor, e: Tensor, h: nat, i: nat)
    requires Vector(a, h) && Vector(b, h) && Vector(e, h) && i < h
    ensures Multiplied(Multiplied(a, b), Complement(Multiplied(e, e))).data[i] ==
      a.data[i] * b.data[i] * (1.0 - e.data[i] * e.data[i])
  {
    var ab, ee := Multiplied(a, b), Multiplied(e, e);
    var oee := Complement(ee);
    var r := Multiplied(ab, oee);
    assert r.data[i] == ab.data[i] * oee.data[i];
    ProductOfEquals(ab.data[i], oee.data[i], a.data[i] * b.data[i], 1.0 - e.data[i] * e.data[i]);
  }

  lemma SigmoidDeltaAt(a: Tensor, b: Tensor, gate: Tensor, h: nat, i: nat)
    requires Vector(a, h) && Vector(b, h) && Vector(gate, h) && i < h
    ensures Multiplied(Multiplied(Multiplied(a, b), gate), Complement(gate)).data[i] ==
      a.data[i] * b.data[i] * Slope(gate.data[i])
  {
    var ab := Multiplied(a, b);
    var abg := Multiplied(ab, gate);
    var og := Complement(gate);
    var r := Multiplied(abg, og);
    GateSlope(a.data[i], b.data[i], gate.data[i], ab.data[i], abg.data[i], og.data[i], r.data[i]);
  }

  /** a * b * o * (1 - o), computed step by step, regrouped as a * b * Slope(o). */
  lemma GateSlope(a: real, b: real, o: real, ab: real, abo: real, om: real, r: real)
    requires ab == a * b && abo == ab * o && om == 1.0 - o && r == abo * om
    ensures r == a * b * Slope(o)
  {
    ProductOfEquals(abo, om, a * b * o, 1.0 - o);
    assert a * b * o * (1.0 - o) == (a * b) * (o * (1.0 - o));
  }

  /** grad_c_next = grad_h_next * ot * (1 - tanh(c_prev)^2), and from it the gate
      deltas grad_ft, grad_it, grad_ot and grad_ct of lines 108-119. */
  function DeltasOf(f: Functions, g: Gates, grad: Tensor, c: Tensor, h: nat): (d: Gates)
    requires Sound(f) && Shaped(g, h) && Vector(grad, h) && Vector(c, h)
    ensures Shaped(d, h)
  {
    var th := Hyperbolic(f, c);
    var cell := TanhDelta(grad, g.output, th, h);
    Gates(SigmoidDelta(cell, c, g.forget, h), SigmoidDelta(cell, g.candidate, g.input, h),
          SigmoidDelta(grad, th, g.output, h), TanhDelta(cell, g.input, g.candidate, h))
  }

  /** The expression shape of grad_c_next and grad_ct. */
  method TanhDeltaFrom(a: Tensor, b: Tensor, e: Tensor, h: nat) returns (d: Tensor)
    requires Vector(a, h) && Vector(b, h) && Vector(e, h)
    ensures d == TanhDelta(a, b, e, h)
  {
    var ab := Multiply(a, b);
    var ee := Multiply(e, e);
    var om := OneMinus(ee.value);
    var m := Multiply(ab.value, om);
    d := m.value;
  }

  /** The expression shape of grad_ft, grad_it and grad_ot. */
  method SigmoidDeltaFrom(a: Tensor, b: Tensor, gate: Tensor, h: nat) returns (d: Tensor)
    requires Vector(a, h) && Vector(b, h) && Vector(gate, h)
    ensures d == SigmoidDelta(a, b, gate, h)
  {
    var ab := Multiply(a, b);
    var abg := Multiply(ab.value, gate);
    var om := OneMinus(gate);
    var m := Multiply(abg.value, om);
    d := m.value;
  }

  /** Lines 108-119: the five delta expressions. */
  method DeltasFrom(f: Functions, g: Gates, grad: Tensor, c: Tensor, h: nat) returns (d: Gates)
    requires Sound(f) && Shaped(g, h) && Vector(grad, h) && Vector(c, h)
    ensures d == DeltasOf(f, g, grad, c, h)
  {
    var th := HyperbolicTangent(f, c);
    var cell := TanhDeltaFrom(grad, g.output, th, h);
    var gradOutput := SigmoidDeltaFrom(grad, th, g.output, h);
    var gradCandidate := TanhDeltaFrom(cell, g.input, g.candidate, h);
    var gradInput := SigmoidDeltaFrom(cell, g.candidate, g.input, h);
    var gradForget := SigmoidDeltaFrom(cell, c, g.forget, h);
    d := Gates(gradForget, gradInput, gradOutput, gradCandidate);
  }

  /** grad_combined = grad_ft * Wf^T + grad_it * Wi^T + grad_ot * Wo^T + grad_ct * Wc^T,
      each product read as Dense.BackProjected. */
  function Backprop(d: Gates, p: Parameters, rows: nat, h: nat): (r: Tensor)
    requires Shaped(d, h) && p.Valid(rows, h)
    ensures Vector(r, rows)
  {
    Product1([rows]);
    Added(Added(Added(BackProjected(d.forget.data, p.wf), BackProjected(d.input.data, p.wi)),
                BackProjected(d.output.data, p.wo)),
          BackProjected(d.candidate.data, p.wc))
  }

  method Backpropagate(d: Gates, p: Parameters, rows: nat, h: nat) returns (gc: Tensor)
    requires Shaped(d, h) && p.Valid(rows, h)
    ensures gc == Backprop(d, p, rows, h)
  {
    Product1([rows]);
    var a := BackProject(d.forget, p.wf);
    var b := BackProject(d.input, p.wi);
    var c := BackProject(d.output, p.wo);
    var e := BackProject(d.candidate, p.wc);
    var ab := Add(a, b);
    var abc := Add(ab.value, c);
    var s := Add(abc.value, e);
    gc := s.value;
  }

  // ---------------------------------------------------------------------
  // The column-by-column loops over the weight matrices

  /** A visit of an n-by-p matrix column by column (i over columns outside, rows j
      inside) has reached row j of column i: the entries visited hold spec, the
      others still hold orig. */
  ghost predicate ColumnsBefore(r: seq<real>, spec: seq<real>, orig: seq<real>, n: nat, p: nat, i: nat, j: nat)
  {
    |r| == n * p && |spec| == n * p && |orig| == n * p &&
    forall a, b :: 0 <= a < n && 0 <= b < p ==>
      Cell(a, b, p) < n * p &&
      r[Cell(a, b, p)] == (if b < i || (b == i && a < j) then spec[Cell(a, b, p)] else orig[Cell(a, b, p)])
  }

  lemma ColumnsStart(orig: seq<real>, spec: seq<real>, n: nat, p: nat)
    requires |orig| == n * p && |spec| == n * p
    ensures ColumnsBefore(orig, spec, orig, n, p, 0, 0)
  {
    forall a, b | 0 <= a < n && 0 <= b < p ensures Cell(a, b, p) < n * p {
      RowMajorBound(a, b, n, p);
    }
  }

  /** The entry at row j of column i is not yet visited. */
  lemma ColumnsUnvisited(r: seq<real>, spec: seq<real>, orig: seq<real>, n: nat, p: nat, i: nat, j: nat)
    requires ColumnsBefore(r, spec, orig, n, p, i, j) && i < p && j < n
    ensures Cell(j, i, p) < n * p && r[Cell(j, i, p)] == orig[Cell(j, i, p)]
  {
  }

  lemma ColumnsStepAt(r: seq<real>, spec: seq<real>, orig: seq<real>, n: nat, p: nat, i: nat, j: nat, v: real, a: nat, b: nat)
    requires ColumnsBefore(r, spec, orig, n, p, i, j) && i < p && j < n && a < n && b < p
    requires Cell(j, i, p) < n * p && v == spec[Cell(j, i, p)]
    ensures Cell(a, b, p) < n * p
    ensures r[Cell(j, i, p) := v][Cell(a, b, p)] ==
      (if b < i || (b == i && a < j + 1) then spec[Cell(a, b, p)] else orig[Cell(a, b, p)])
  {
    RowMajorBound(a, b, n, p);
    if (a != j || b != i) && Cell(a, b, p) == Cell(j, i, p) {
      RowMajorInjective(a, b, j, i, p);
    }
  }

  /** Writing spec's entry at row j of column i moves the visit one row on. */
  lemma ColumnsStep(r: seq<real>, spec: seq<real>, orig: seq<real>, n: nat, p: nat, i: nat, j: nat, v: real)
    requires ColumnsBefore(r, spec, orig, n, p, i, j) && i < p && j < n
    requires Cell(j, i, p) < n * p && v == spec[Cell(j, i, p)]
    ensures ColumnsBefore(r[Cell(j, i, p) := v], spec, orig, n, p, i, j + 1)
  {
    var r' := r[Cell(j, i, p) := v];
    forall a, b | 0 <= a < n && 0 <= b < p
      ensures Cell(a, b, p) < n * p &&
        r'[Cell(a, b, p)] == (if b < i || (b == i && a < j + 1) then spec[Cell(a, b, p)] else orig[Cell(a, b, p)])
    {
      ColumnsStepAt(r, spec, orig, n, p, i, j, v, a, b);
    }
  }

  /** Finishing column i is starting column i + 1. */
  lemma ColumnsNext(r: seq<real>, spec: seq<real>, orig: seq<real>, n: nat, p: nat, i: nat)
    requires ColumnsBefore(r, spec, orig, n, p, i, n)
    ensures ColumnsBefore(r, spec, orig, n, p, i + 1, 0)
  {
  }

  /** Once every column is visited, every entry holds spec. */
  lemma ColumnsDone(r: seq<real>, spec: seq<real>, orig: seq<real>, n: nat, p: nat)
    requires ColumnsBefore(r, spec, orig, n, p, p, 0)
    ensures r == spec
  {
    forall q | 0 <= q < n * p ensures r[q] == spec[q] {
      var a, b := q / p, q % p;
      assert q == Cell(a, b, p);
      if a >= n {
        MulMonotone(n, a, p);
        assert false;
      }
    }
  }

  /** The accumulated entry grad_W({j, i}) = 0 + grad_gate({i}) * combined({j}) is the
      outer product's entry combined[j] * delta[i]. */
  lemma OuterEntry(x: seq<real>, delta: seq<real>, n: nat, p: nat, j: nat, i: nat, cur: real, dv: real, xv: real)
    requires |x| >= n && |delta| >= p && j < n && i < p
    requires cur == 0.0 && dv == delta[i] && xv == x[j]
    ensures Cell(j, i, p) < n * p && Outer(x, delta, n, p).data[Cell(j, i, p)] == cur + dv * xv
  {
    RowMajorBound(j, i, n, p);
    FlattenAt(OuterRows(x, delta, n, p), p, j, i);
    ProductOfEquals(dv, xv, delta[i], x[j]);
  }

  /** The updated entry W({j, i}) - lr * grad_W({j, i}). */
  lemma DescentEntry(w: Tensor, gw: Tensor, lr: real, q: nat, x: real, y: real)
    requires q < |w.data| && |gw.data| >= |w.data|
    requires x == w.data[q] && y == gw.data[q]
    ensures ScaledDifference(w, gw, lr).data[q] == x - lr * y
  {
    ProductOfEquals(lr, y, lr, gw.data[q]);
  }

  /** One gate's share of the inner accumulation loop (lines 143-148) for column i:
      grad_W({j, i}) += grad_gate({i}) * combined({j}) for every row j. */
  method AccumulateColumn(x: Tensor, delta: Tensor, gw0: Tensor, n: nat, p: nat, i: nat) returns (gw: Tensor)
    requires x.Valid() && VectorOfAtLeast(x, n) && delta.Valid() && VectorOfAtLeast(delta, p) && i < p
    requires Weight(gw0, n, p)
    requires ColumnsBefore(gw0.data, Outer(x.data, delta.data, n, p).data, Zeros([n, p]).data, n, p, i, 0)
    ensures Weight(gw, n, p)
    ensures ColumnsBefore(gw.data, Outer(x.data, delta.data, n, p).data, Zeros([n, p]).data, n, p, i, n)
  {
    ghost var spec := Outer(x.data, delta.data, n, p).data;
    ghost var zero := Zeros([n, p]).data;
    gw := gw0;
    for j := 0 to n
      invariant Weight(gw, n, p)
      invariant ColumnsBefore(gw.data, spec, zero, n, p, i, j)
    {
      var cur := Get2(gw, j, i);
      ColumnsUnvisited(gw.data, spec, zero, n, p, i, j);
      var dv := Get1(delta, i);
      var xv := Get1(x, j);
      OuterEntry(x.data, delta.data, n, p, j, i, cur, dv, xv);
      ColumnsStep(gw.data, spec, zero, n, p, i, j, cur + dv * xv);
      gw := Set2(gw, j, i, cur + dv * xv);
    }
  }

  /** One gate's share of the accumulation loop (lines 142-153), on zero-filled
      gradients: column by column, then grad_b({i}) += grad_gate({i}). */
  method Accumulate(x: Tensor, delta: Tensor, n: nat, p: nat) returns (gw: Tensor, gb: Tensor)
    requires x.Valid() && VectorOfAtLeast(x, n) && delta.Valid() && VectorOfAtLeast(delta, p)
    ensures gw == Outer(x.data, delta.data, n, p)
    ensures gb == Prefix(delta.data, p)
  {
    ghost var spec := Outer(x.data, delta.data, n, p).data;
    ghost var zero := Zeros([n, p]).data;
    gw := New([n, p]);
    gb := New([p]);
    Product2([n, p]);
    Product1([p]);
    ColumnsStart(zero, spec, n, p);
    for i := 0 to p
      invariant Weight(gw, n, p)
      invariant ColumnsBefore(gw.data, spec, zero, n, p, i, 0)
      invariant gb.shape == [p] && |gb.data| == p
      invariant forall k :: 0 <= k < i ==> gb.data[k] == delta.data[k]
      invariant forall k :: i <= k < p ==> gb.data[k] == 0.0
    {
      gw := AccumulateColumn(x, delta, gw, n, p, i);
      ColumnsNext(gw.data, spec, zero, n, p, i);
      var cur := Get1(gb, i);
      var dv := Get1(delta, i);
      gb := Set1(gb, i, cur + dv);
    }
    ColumnsDone(gw.data, spec, zero, n, p);
    assert gb.data == delta.data[..p];
  }

  /** One gate's share of the inner update loop (lines 157-162) for column i:
      W({j, i}) -= learning_rate * grad_W({j, i}) for every row j. */
  method DescendColumn(w: Tensor, gw: Tensor, r0: Tensor, lr: real, n: nat, p: nat, i: nat) returns (r: Tensor)
    requires Weight(w, n, p) && Weight(gw, n, p) && Weight(r0, n, p) && i < p
    requires ColumnsBefore(r0.data, ScaledDifference(w, gw, lr).data, w.data, n, p, i, 0)
    ensures Weight(r, n, p)
    ensures ColumnsBefore(r.data, ScaledDifference(w, gw, lr).data, w.data, n, p, i, n)
  {
    ghost var spec := ScaledDifference(w, gw, lr).data;
    r := r0;
    for j := 0 to n
      invariant Weight(r, n, p)
      invariant ColumnsBefore(r.data, spec, w.data, n, p, i, j)
    {
      var x := Get2(r, j, i);
      ColumnsUnvisited(r.data, spec, w.data, n, p, i, j);
      var y := Get2(gw, j, i);
      DescentEntry(w, gw, lr, Cell(j, i, p), x, y);
      ColumnsStep(r.data, spec, w.data, n, p, i, j, x - lr * y);
      r := Set2(r, j, i, x - lr * y);
    }
  }

  /** One gate's share of the update loop (lines 156-167): W moves column by column
      against grad_W, then b({i}) -= learning_rate * grad_b({i}). */
  method Descend(w: Tensor, b: Tensor, gw: Tensor, gb: Tensor, lr: real, n: nat, p: nat)
    returns (newW: Tensor, newB: Tensor)
    requires Weight(w, n, p) && Weight(gw, n, p) && Vector(b, p) && Vector(gb, p)
    ensures newW == ScaledDifference(w, gw, lr)
    ensures newB == ScaledDifference(b, gb, lr)
  {
    ghost var spec := ScaledDifference(w, gw, lr).data;
    newW, newB := w, b;
    ColumnsStart(w.data, spec, n, p);
    for i := 0 to p
      invariant Weight(newW, n, p)
      invariant ColumnsBefore(newW.data, spec, w.data, n, p, i, 0)
      invariant newB.shape == b.shape && |newB.data| == p
      invariant forall k :: 0 <= k < i ==> newB.data[k] == ScaledDifference(b, gb, lr).data[k]
      invariant forall k :: i <= k < p ==> newB.data[k] == b.data[k]
    {
      newW := DescendColumn(w, gw, newW, lr, n, p, i);
      ColumnsNext(newW.data, spec, w.data, n, p, i);
      var x := Get1(newB, i);
      var y := Get1(gb, i);
      DescentEntry(b, gb, lr, i, x, y);
      newB := Set1(newB, i, x - lr * y);
    }
    ColumnsDone(newW.data, spec, w.data, n, p);
    assert newB.data == ScaledDifference(b, gb, lr).data;
  }

  /** The parameters after backward: every weight matrix moved against the outer
      product of combined with its gate's delta, every bias against the delta. */
  function Descended(p: Parameters, x: seq<real>, d: Gates, lr: real, rows: nat, h: nat): (q: Parameters)
    requires p.Valid(rows, h) && |x| >= rows && Shaped(d, h)
    ensures q.Valid(rows, h)
  {
    Parameters(
      ScaledDifference(p.wf, Outer(x, d.forget.data, rows, h), lr),
      ScaledDifference(p.wi, Outer(x, d.input.data, rows, h), lr),
      ScaledDifference(p.wo, Outer(x, d.output.data, rows, h), lr),
      ScaledDifference(p.wc, Outer(x, d.candidate.data, rows, h), lr),
      ScaledDifference(p.bf, Prefix(d.forget.data, h), lr),
      ScaledDifference(p.bi, Prefix(d.input.data, h), lr),
      ScaledDifference(p.bo, Prefix(d.output.data, h), lr),
      ScaledDifference(p.bc, Prefix(d.candidate.data, h), lr))
  }

  /** Lines 142-167: all eight gradients are accumulated, then all eight parameters
      move.  The source runs the four gates' statements inside one loop nest; they
      touch disjoint tensors, so taking the gates one at a time gives the same tensors. */
  method Learn(p: Parameters, x: Tensor, d: Gates, lr: real, rows: nat, h: nat) returns (q: Parameters)
    requires p.Valid(rows, h) && Vector(x, rows) && Shaped(d, h)
    ensures q == Descended(p, x.data, d, lr, rows, h)
  {
    var gwf, gbf := Accumulate(x, d.forget, rows, h);
    var gwi, gbi := Accumulate(x, d.input, rows, h);
    var gwo, gbo := Accumulate(x, d.output, rows, h);
    var gwc, gbc := Accumulate(x, d.candidate, rows, h);
    var wf, bf := Descend(p.wf, p.bf, gwf, gbf, lr, rows, h);
    var wi, bi := Descend(p.wi, p.bi, gwi, gbi, lr, rows, h);
    var wo, bo := Descend(p.wo, p.bo, gwo, gbo, lr, rows, h);
    var wc, bc := Descend(p.wc, p.bc, gwc, gbc, lr, rows, h);
    q := Parameters(wf, wi, wo, wc, bf, bi, bo, bc);
  }

  /** backward after its check, on the layer's fields as values: the combined
      vector, the gates, the deltas, grad_input from grad_combined, and the
      parameters after the update. */
  method BackwardStep(f: Functions, p: Parameters, cache: Tensor, hPrev: Tensor, cPrev: Tensor,
                      grad: Tensor, lr: real, n: nat, h: nat) returns (gradInput: Tensor, q: Parameters)
    requires Sound(f) && p.Valid(n + h, h) && cache.Valid() && VectorOfAtLeast(cache, n)
    requires Vector(hPrev, h) && Vector(cPrev, h) && Vector(grad, h)
    ensures var x := Joined(cache.data[..n], hPrev.data).data;
      var d := DeltasOf(f, GatesOf(f, p, x, h), grad, cPrev, h);
      gradInput == Prefix(Backprop(d, p, n + h, h).data, n) &&
      q == Descended(p, x, d, lr, n + h, h)
  {
    var combined := Concatenate(cache, hPrev, n, h);
    assert hPrev.data[..h] == hPrev.data;
    var g := GatesFrom(f, p, combined, h);
    var d := DeltasFrom(f, g, grad, cPrev, h);
    var gc := Backpropagate(d, p, n + h, h);
    gradInput := CopyPrefix(gc, n);
    q := Learn(p, combined, d, lr, n + h, h);
  }

  // ---------------------------------------------------------------------
  // The layer

  class LSTM {
    const inputSize: nat
    const hiddenSize: nat
    var params: Parameters
    var inputCache: Tensor
    var hPrev: Tensor
    var cPrev: Tensor

    predicate Valid()
      reads this
    {
      params.Valid(inputSize + hiddenSize, hiddenSize) &&
      Vector(hPrev, hiddenSize) && Vector(cPrev, hiddenSize) && inputCache.Valid()
    }

    /** forward's check: a vector of input_size elements. */
    predicate Accepts(input: Tensor)
    {
      Vector(input, inputSize)
    }

    /** backward's check: a vector of hidden_size elements. */
    predicate AcceptsGradient(grad: Tensor)
    {
      Vector(grad, hiddenSize)
    }

    /** The weights take their initial values in row-major order, from the
        caller's draws; biases and both states start at zero, the cache as
        Tensor({}). */
    constructor(inputSize: nat, hiddenSize: nat, initialF: seq<real>, initialI: seq<real>,
                initialO: seq<real>, initialC: seq<real>)
      requires |initialF| == (inputSize + hiddenSize) * hiddenSize
      requires |initialI| == (inputSize + hiddenSize) * hiddenSize
      requires |initialO| == (inputSize + hiddenSize) * hiddenSize
      requires |initialC| == (inputSize + hiddenSize) * hiddenSize
      ensures Valid() && this.inputSize == inputSize && this.hiddenSize == hiddenSize
      ensures var shape := [inputSize + hiddenSize, hiddenSize];
        params == Parameters(Tensor(shape, initialF), Tensor(shape, initialI),
                               Tensor(shape, initialO), Tensor(shape, initialC),
                               Zeros([hiddenSize]), Zeros([hiddenSize]), Zeros([hiddenSize]), Zeros([hiddenSize]))
      ensures hPrev == Zeros([hiddenSize]) && cPrev == Zeros([hiddenSize]) && inputCache == Zeros([])
    {
      this.inputSize := inputSize;
      this.hiddenSize := hiddenSize;
      var shape := [inputSize + hiddenSize, hiddenSize];
      Product2(shape);
      Product1([hiddenSize]);
      params := Parameters(Tensor(shape, initialF), Tensor(shape, initialI),
                           Tensor(shape, initialO), Tensor(shape, initialC),
                           Zeros([hiddenSize]), Zeros([hiddenSize]), Zeros([hiddenSize]), Zeros([hiddenSize]));
      hPrev := Zeros([hiddenSize]);
      cPrev := Zeros([hiddenSize]);
      inputCache := Zeros([]);
    }

    /** forward as written: after the check and the cache, combined.dot(Wf) throws,
        because combined has rank 1; the states are never reached. */
    method ForwardAsWritten(input: Tensor) returns (r: Result<Tensor>)
      requires Valid() && input.Valid()
      modifies this
      ensures Valid() && params == old(params) && hPrev == old(hPrev) && cPrev == old(cPrev)
      ensures r == Err(ShapeMismatch)
      ensures !Accepts(input) ==> unchanged(this)
      ensures Accepts(input) ==> inputCache == input
    {
      if |input.shape| != 1 || input.shape[0] != inputSize {
        return Err(ShapeMismatch);
      }
      Product1(input.shape);
      inputCache := input;
      var combined := Concatenate(input, hPrev, inputSize, hiddenSize);
      var pre := Dot(combined, params.wf);
      r := Err(pre.error);
    }

    /** backward as written: after the check, the zero-filled gradients and the
        concatenation, combined.dot(Wf) throws; nothing changes. */
    method BackwardAsWritten(grad: Tensor, learningRate: real) returns (r: Result<Tensor>)
      requires Valid() && grad.Valid()
      requires AcceptsGradient(grad) ==> VectorOfAtLeast(inputCache, inputSize)
      ensures r == Err(ShapeMismatch)
    {
      if |grad.shape| != 1 || grad.shape[0] != hiddenSize {
        return Err(ShapeMismatch);
      }
      Product1(grad.shape);
      var combined := Concatenate(inputCache, hPrev, inputSize, hiddenSize);
      var pre := Dot(combined, params.wf);
      r := Err(pre.error);
    }

    /** forward with each gate as the vector-by-matrix product: the new states
        replace the old, and h_next is returned. */
    method Forward(f: Functions, input: Tensor) returns (r: Result<Tensor>)
      requires Sound(f) && Valid() && input.Valid()
      modifies this
      ensures Valid() && params == old(params)
      ensures !Accepts(input) ==> r == Err(ShapeMismatch) && unchanged(this)
      ensures Accepts(input) ==> inputCache == input
      ensures Accepts(input) ==>
        var g := GatesOf(f, params, Joined(input.data, old(hPrev).data).data, hiddenSize);
        cPrev == CellNext(g, old(cPrev)) && hPrev == HiddenNext(f, g, cPrev) && r == Ok(hPrev)
    {
      if |input.shape| != 1 || input.shape[0] != inputSize {
        return Err(ShapeMismatch);
      }
      Product1(input.shape);
      inputCache := input;
      var combined := Concatenate(input, hPrev, inputSize, hiddenSize);
      assert input.data[..inputSize] == input.data && hPrev.data[..hiddenSize] == hPrev.data;
      var g := GatesFrom(f, params, combined, hiddenSize);
      var cNext := CellStep(g, cPrev, hiddenSize);
      var hNext := HiddenStep(f, g, cNext, hiddenSize);
      cPrev := cNext;
      hPrev := hNext;
      r := Ok(hNext);
    }

    /** backward with the same reading of dot: the gates are recomputed from the
        cached input and the current h_prev, grad_input is the first input_size
        entries of grad_combined (computed with the weights before the update),
        and the eight parameters move. */
    method Backward(f: Functions, grad: Tensor, learningRate: real) returns (r: Result<Tensor>)
      requires Sound(f) && Valid() && grad.Valid()
      requires AcceptsGradient(grad) ==> VectorOfAtLeast(inputCache, inputSize)
      modifies this
      ensures Valid() && inputCache == old(inputCache) && hPrev == old(hPrev) && cPrev == old(cPrev)
      ensures !AcceptsGradient(grad) ==> r == Err(ShapeMismatch) && unchanged(this)
      ensures AcceptsGradient(grad) ==>
        var rows := inputSize + hiddenSize;
        var x := Joined(inputCache.data[..inputSize], hPrev.data).data;
        var d := DeltasOf(f, GatesOf(f, old(params), x, hiddenSize), grad, cPrev, hiddenSize);
        r == Ok(Prefix(Backprop(d, old(params), rows, hiddenSize).data, inputSize)) &&
        params == Descended(old(params), x, d, learningRate, rows, hiddenSize)
    {
      if |grad.shape| != 1 || grad.shape[0] != hiddenSize {
        return Err(ShapeMismatch);
      }
      Product1(grad.shape);
      var gradInput, q := BackwardStep(f, params, inputCache, hPrev, cPrev, grad, learningRate, inputSize, hiddenSize);
      params := q;
      r := Ok(gradInput);
    }
  }

  // ---------------------------------------------------------------------
  // Properties

  /** The constructor's loops write Wf({i}) for every i < Wf.size(): for any
      hidden_size > 0 the matrix has an element, and the first write gives one
      coordinate to a rank-2 tensor, which the accessor's assertion rejects. */
  lemma ConstructorTripsAssertion(inputSize: nat, hiddenSize: nat)
    requires hiddenSize > 0
    ensures var w := Zeros([inputSize + hiddenSize, hiddenSize]);
      |w.data| > 0 && |[0]| != |w.shape|
  {
    Product2([inputSize + hiddenSize, hiddenSize]);
    MulMonotone(1, inputSize + hiddenSize, hiddenSize);
  }

  /** dot rejects the rank-1 combined vector whatever the weights: the gate
      expressions of forward and backward cannot be evaluated as written. */
  lemma DotRejectsCombined(x: seq<real>, h: seq<real>, w: Tensor)
    requires w.Valid()
    ensures DotSpec(Joined(x, h), w) == Err(ShapeMismatch)
  {
  }

  /** The combined vector splits back into its parts: grad_input takes its first
      input_size entries, the part that belongs to the input. */
  lemma JoinedSplits(x: seq<real>, h: seq<real>)
    ensures Prefix(Joined(x, h).data, |x|) == Tensor([|x|], x)
    ensures forall i :: 0 <= i < |h| ==> Joined(x, h).data[|x| + i] == h[i]
  {
    var j := Joined(x, h).data;
    forall i | 0 <= i < |h| ensures j[|x| + i] == h[i] {
      assert j[|x| + i] == j[|x|..][i];
    }
  }

  /** Every element of h_next lies in (-1, 1). */
  lemma HiddenBounded(f: Functions, g: Gates, c: Tensor, h: nat)
    requires Sound(f) && Shaped(g, h) && InRange(g) && Vector(c, h)
    ensures forall i :: 0 <= i < h ==> -1.0 < HiddenNext(f, g, CellNext(g, c)).data[i] < 1.0
  {
    var cn := CellNext(g, c);
    var th := Hyperbolic(f, cn);
    var hn := HiddenNext(f, g, cn);
    forall i | 0 <= i < h ensures -1.0 < hn.data[i] < 1.0 {
      var o, t := g.output.data[i], th.data[i];
      assert hn.data[i] == o * t;
      ShrinkByUnit(o, t);
    }
  }

  /** Every element of c_next has magnitude below |c_prev[i]| + 1: the forget gate
      shrinks the old state and the input gate adds less than 1. */
  lemma CellBounded(g: Gates, c: Tensor, h: nat)
    requires Shaped(g, h) && InRange(g) && Vector(c, h)
    ensures forall i :: 0 <= i < h ==> -Abs(c.data[i]) - 1.0 < CellNext(g, c).data[i] < Abs(c.data[i]) + 1.0
  {
    var cn := CellNext(g, c);
    forall i | 0 <= i < h ensures -Abs(c.data[i]) - 1.0 < cn.data[i] < Abs(c.data[i]) + 1.0 {
      var fg, ig, ct := g.forget.data[i], g.input.data[i], g.candidate.data[i];
      ShrinkByUnit(fg, c.data[i]);
      ShrinkByUnit(ig, ct);
      assert -1.0 < ct < 1.0;
    }
  }

  /** Starting from the zero state, the first c_next and h_next lie in (-1, 1). */
  lemma FirstStepBounded(f: Functions, g: Gates, h: nat)
    requires Sound(f) && Shaped(g, h) && InRange(g)
    ensures forall i :: 0 <= i < h ==>
      -1.0 < CellNext(g, Zeros([h])).data[i] < 1.0 && -1.0 < HiddenNext(f, g, CellNext(g, Zeros([h]))).data[i] < 1.0
  {
    Product1([h]);
    CellBounded(g, Zeros([h]), h);
    HiddenBounded(f, g, Zeros([h]), h);
  }

  /** With learning rate 0, backward leaves all eight parameters as they were. */
  lemma ZeroRateKeepsParameters(p: Parameters, x: seq<real>, d: Gates, rows: nat, h: nat)
    requires p.Valid(rows, h) && |x| >= rows && Shaped(d, h)
    ensures Descended(p, x, d, 0.0, rows, h) == p
  {
    ZeroRateKeeps(p.wf, Outer(x, d.forget.data, rows, h));
    ZeroRateKeeps(p.wi, Outer(x, d.input.data, rows, h));
    ZeroRateKeeps(p.wo, Outer(x, d.output.data, rows, h));
    ZeroRateKeeps(p.wc, Outer(x, d.candidate.data, rows, h));
    ZeroRateKeeps(p.bf, Prefix(d.forget.data, h));
    ZeroRateKeeps(p.bi, Prefix(d.input.data, h));
    ZeroRateKeeps(p.bo, Prefix(d.output.data, h));
    ZeroRateKeeps(p.bc, Prefix(d.candidate.data, h));
  }

  /** After backward, entry (j, i) of each weight matrix is the old entry minus
      lr * combined[j] * delta[i]. */
  lemma WeightsDescendedAt(p: Parameters, x: seq<real>, d: Gates, lr: real, rows: nat, h: nat, j: nat, i: nat)
    requires p.Valid(rows, h) && |x| >= rows && Shaped(d, h) && j < rows && i < h
    ensures var q := Descended(p, x, d, lr, rows, h);
      At2(q.wf, j, i) == At2(p.wf, j, i) - lr * (x[j] * d.forget.data[i]) &&
      At2(q.wi, j, i) == At2(p.wi, j, i) - lr * (x[j] * d.input.data[i]) &&
      At2(q.wo, j, i) == At2(p.wo, j, i) - lr * (x[j] * d.output.data[i]) &&
      At2(q.wc, j, i) == At2(p.wc, j, i) - lr * (x[j] * d.candidate.data[i])
  {
    WeightUpdateAt(p.wf, x, d.forget.data, lr, j, i);
    WeightUpdateAt(p.wi, x, d.input.data, lr, j, i);
    WeightUpdateAt(p.wo, x, d.output.data, lr, j, i);
    WeightUpdateAt(p.wc, x, d.candidate.data, lr, j, i);
  }

  /** After backward, element i of each bias is the old one minus lr * delta[i]. */
  lemma BiasesDescendedAt(p: Parameters, x: seq<real>, d: Gates, lr: real, rows: nat, h: nat, i: nat)
    requires p.Valid(rows, h) && |x| >= rows && Shaped(d, h) && i < h
    ensures var q := Descended(p, x, d, lr, rows, h);
      q.bf.data[i] == p.bf.data[i] - lr * d.forget.data[i] &&
      q.bi.data[i] == p.bi.data[i] - lr * d.input.data[i] &&
      q.bo.data[i] == p.bo.data[i] - lr * d.output.data[i] &&
      q.bc.data[i] == p.bc.data[i] - lr * d.candidate.data[i]
  {
    BiasUpdateAt(p.bf, d.forget.data, lr, i);
    BiasUpdateAt(p.bi, d.input.data, lr, i);
    BiasUpdateAt(p.bo, d.output.data, lr, i);
    BiasUpdateAt(p.bc, d.candidate.data, lr, i);
  }
}

/**
 * The fully connected layer.  weights is an input_size-by-output_size
 * matrix and biases a vector of output_size elements.  forward caches its
 * input and computes out[i] = sum over j of in[j] * W[j, i], plus b[i].
 * backward first computes the input gradient with the current weights,
 * then the weight gradient (the outer product of the cached input and the
 * output gradient) and the bias gradient (the output gradient itself), and
 * finally moves the weights and biases against them.  No shape is checked:
 * every access is a single or double coordinate that must be in range.
 */
module Dense {
  import opened Sums
  import opened Tensors

  /** The forward output: out[i] = x[0]*W[0, i] + ... + x[n-1]*W[n-1, i] + b[i]. */
  function Affine(x: seq<real>, w: Tensor, b: Tensor): (r: Tensor)
    requires IsMatrix(w) && |x| >= w.shape[0] && |b.data| >= w.shape[1]
    ensures r.Valid() && r.shape == [w.shape[1]]
  {
    Product1([w.shape[1]]);
    Tensor([w.shape[1]], seq(w.shape[1], i requires 0 <= i < w.shape[1] => Inner(x[..w.shape[0]], Col(w, i)) + b.data[i]))
  }

  /** The input gradient: grad_in[i] = g[0]*W[i, 0] + ... + g[p-1]*W[i, p-1]. */
  function BackProjected(g: seq<real>, w: Tensor): (r: Tensor)
    requires IsMatrix(w) && |g| >= w.shape[1]
    ensures r.Valid() && r.shape == [w.shape[0]]
  {
    Product1([w.shape[0]]);
    Tensor([w.shape[0]], seq(w.shape[0], i requires 0 <= i < w.shape[0] => Inner(g[..w.shape[1]], Row(w, i))))
  }

  function OuterRows(x: seq<real>, g: seq<real>, n: nat, p: nat): (rows: seq<seq<real>>)
    requires |x| >= n && |g| >= p
    ensures |rows| == n && Uniform(rows, p) && |Flatten(rows)| == n * p
  {
    var rows := seq(n, i requires 0 <= i < n => seq(p, j requires 0 <= j < p => x[i] * g[j]));
    FlattenLength(rows, p);
    rows
  }

  /** The weight gradient: the n-by-p matrix with entry (i, j) = x[i] * g[j]. */
  function Outer(x: seq<real>, g: seq<real>, n: nat, p: nat): (r: Tensor)
    requires |x| >= n && |g| >= p
    ensures IsMatrix(r) && r.shape == [n, p] && |r.data| == n * p
  {
    Product2([n, p]);
    Tensor([n, p], Flatten(OuterRows(x, g, n, p)))
  }

  /** The bias gradient: the first p elements of the output gradient, as a vector. */
  function Prefix(g: seq<real>, p: nat): (r: Tensor)
    requires |g| >= p
    ensures r.Valid() && r.shape == [p]
  {
    Product1([p]);
    Tensor([p], g[..p])
  }

  /** forward's inner loop: sum += input({j}) * weights({j, i}) over j. */
  method ColumnSum(x: Tensor, w: Tensor, i: nat) returns (sum: real)
    requires IsMatrix(w) && i < w.shape[1]
    requires x.Valid() && VectorOfAtLeast(x, w.shape[0])
    ensures sum == Inner(x.data[..w.shape[0]], Col(w, i))
  {
    var n := w.shape[0];
    var xs, col := x.data[..n], Col(w, i);
    sum := 0.0;
    for j := 0 to n
      invariant sum == Inner(xs[..j], col[..j])
    {
      var a := Get1(x, j);
      var b := Get2(w, j, i);
      assert a == xs[j] && b == col[j];
      InnerStep(xs, col, j);
      sum := sum + a * b;
    }
    assert xs[..n] == xs && col[..n] == col;
  }

  /** forward's loops: output({i}) = sum + biases({i}) for every i below output_size. */
  method AffineMap(x: Tensor, w: Tensor, b: Tensor) returns (out: Tensor)
    requires IsMatrix(w) && x.Valid() && VectorOfAtLeast(x, w.shape[0])
    requires b.Valid() && VectorOfAtLeast(b, w.shape[1])
    ensures out == Affine(x.data, w, b)
  {
    var p := w.shape[1];
    out := New([p]);
    Product1([p]);
    for i := 0 to p
      invariant out.shape == [p] && |out.data| == p
      invariant forall k :: 0 <= k < i ==> out.data[k] == Inner(x.data[..w.shape[0]], Col(w, k)) + b.data[k]
    {
      var sum := ColumnSum(x, w, i);
      var bias := Get1(b, i);
      out := Set1(out, i, sum + bias);
    }
  }

  /** backward's first loop, inner part: sum += grad_output({j}) * weights({i, j}) over j. */
  method RowSum(g: Tensor, w: Tensor, i: nat) returns (sum: real)
    requires IsMatrix(w) && i < w.shape[0]
    requires g.Valid() && VectorOfAtLeast(g, w.shape[1])
    ensures sum == Inner(g.data[..w.shape[1]], Row(w, i))
  {
    var p := w.shape[1];
    var gs, row := g.data[..p], Row(w, i);
    sum := 0.0;
    for j := 0 to p
      invariant sum == Inner(gs[..j], row[..j])
    {
      var a := Get1(g, j);
      var b := Get2(w, i, j);
      assert a == gs[j] && b == row[j];
      InnerStep(gs, row, j);
      sum := sum + a * b;
    }
    assert gs[..p] == gs && row[..p] == row;
  }

  /** backward's first loop: grad_input({i}) = sum for every i below input_size. */
  method BackProject(g: Tensor, w: Tensor) returns (gradInput: Tensor)
    requires IsMatrix(w) && g.Valid() && VectorOfAtLeast(g, w.shape[1])
    ensures gradInput == BackProjected(g.data, w)
  {
    var n := w.shape[0];
    gradInput := New([n]);
    Product1([n]);
    for i := 0 to n
      invariant gradInput.shape == [n] && |gradInput.data| == n
      invariant forall k :: 0 <= k < i ==> gradInput.data[k] == Inner(g.data[..w.shape[1]], Row(w, k))
    {
      var sum := RowSum(g, w, i);
      gradInput := Set1(gradInput, i, sum);
    }
  }

  /** backward's second loop: grad_weights({i, j}) = input_cache({i}) * grad_output({j}). */
  method OuterProduct(x: Tensor, g: Tensor, n: nat, p: nat) returns (gw: Tensor)
    requires x.Valid() && VectorOfAtLeast(x, n) && g.Valid() && VectorOfAtLeast(g, p)
    ensures gw == Outer(x.data, g.data, n, p)
  {
    ghost var rows := OuterRows(x.data, g.data, n, p);
    ghost var spec := Flatten(rows);
    gw := New([n, p]);
    Product2([n, p]);
    ghost var c := 0;
    for i := 0 to n
      invariant gw.shape == [n, p]
      invariant c == i * p
      invariant FilledBefore(gw.data, spec, c)
    {
      for j := 0 to p
        invariant gw.shape == [n, p]
        invariant c == i * p + j
        invariant FilledBefore(gw.data, spec, c)
      {
        Offset2(gw.shape, i, j);
        RowMajorBound(i, j, n, p);
        var a := Get1(x, i);
        var b := Get1(g, j);
        FlattenAt(rows, p, i, j);
        FilledStep(gw.data, spec, c, a * b);
        gw := Set(gw, [i, j], a * b);
        c := c + 1;
      }
      assert c == (i + 1) * p;
    }
    assert gw.data == spec;
  }

  /** backward's third loop: grad_biases({i}) = grad_output({i}). */
  method CopyPrefix(g: Tensor, p: nat) returns (gb: Tensor)
    requires g.Valid() && VectorOfAtLeast(g, p)
    ensures gb == Prefix(g.data, p)
  {
    gb := New([p]);
    Product1([p]);
    for i := 0 to p
      invariant gb.shape == [p] && |gb.data| == p
      invariant forall k :: 0 <= k < i ==> gb.data[k] == g.data[k]
    {
      var v := Get1(g, i);
      gb := Set1(gb, i, v);
    }
    assert gb.data == g.data[..p];
  }

  /** backward's fourth loop: weights({i, j}) -= learning_rate * grad_weights({i, j}),
      visiting the coordinates in row-major order. */
  method DescendMatrix(w: Tensor, gw: Tensor, lr: real) returns (r: Tensor)
    requires IsMatrix(w) && IsMatrix(gw) && gw.shape == w.shape
    ensures r == ScaledDifference(w, gw, lr)
  {
    var n, p := w.shape[0], w.shape[1];
    Product2(w.shape);
    ghost var spec := ScaledDifference(w, gw, lr).data;
    r := w;
    ghost var c := 0;
    for i := 0 to n
      invariant r.shape == w.shape
      invariant c == i * p
      invariant UpdatedBefore(r.data, spec, w.data, c)
    {
      for j := 0 to p
        invariant r.shape == w.shape
        invariant c == i * p + j
        invariant UpdatedBefore(r.data, spec, w.data, c)
      {
        Offset2(w.shape, i, j);
        RowMajorBound(i, j, n, p);
        var x := Get(r, [i, j]);
        var y := Get(gw, [i, j]);
        assert spec[c] == x - lr * y;
        UpdatedStep(r.data, spec, w.data, c, x - lr * y);
        r := Set(r, [i, j], x - lr * y);
        c := c + 1;
      }
      assert c == (i + 1) * p;
    }
    assert r.data == spec;
  }

  class DenseLayer {
    const inputSize: nat
    const outputSize: nat
    var weights: Tensor
    var biases: Tensor
    var inputCache: Tensor

    /** The parameters keep the shapes the constructor gives them. */
    predicate Valid()
      reads this
    {
      IsMatrix(weights) && weights.shape == [inputSize, outputSize] &&
      |weights.data| == inputSize * outputSize &&
      biases.Valid() && biases.shape == [outputSize] && |biases.data| == outputSize
    }

    /** The weights come from the random initialisation, given here as the
        row-major sequence initialWeights; the biases are zero and the input cache
        is a zero vector of input_size elements. */
    constructor(inputSize: nat, outputSize: nat, initialWeights: seq<real>)
      requires |initialWeights| == inputSize * outputSize
      ensures Valid() && this.inputSize == inputSize && this.outputSize == outputSize
      ensures weights == Tensor([inputSize, outputSize], initialWeights)
      ensures biases == Zeros([outputSize]) && inputCache == Zeros([inputSize])
    {
      this.inputSize := inputSize;
      this.outputSize := outputSize;
      Product2([inputSize, outputSize]);
      Product1([outputSize]);
      weights := Tensor([inputSize, outputSize], initialWeights);
      biases := Zeros([outputSize]);
      Product1([outputSize]);
      inputCache := Zeros([inputSize]);
    }

    /** Caches the input and returns input * weights + biases. */
    method Forward(input: Tensor) returns (output: Tensor)
      requires Valid() && input.Valid() && VectorOfAtLeast(input, inputSize)
      modifies this
      ensures Valid() && weights == old(weights) && biases == old(biases)
      ensures inputCache == input
      ensures output == Affine(input.data, weights, biases)
    {
      inputCache := input;
      output := AffineMap(input, weights, biases);
    }

    /** Returns the input gradient computed with the weights before the update, then
        moves the weights and the biases against their gradients. */
    method Backward(grad: Tensor, learningRate: real) returns (gradInput: Tensor)
      requires Valid() && grad.Valid() && VectorOfAtLeast(grad, outputSize)
      requires inputCache.Valid() && VectorOfAtLeast(inputCache, inputSize)
      modifies this
      ensures Valid() && inputCache == old(inputCache)
      ensures gradInput == BackProjected(grad.data, old(weights))
      ensures weights == ScaledDifference(old(weights), Outer(inputCache.data, grad.data, inputSize, outputSize), learningRate)
      ensures biases == ScaledDifference(old(biases), Prefix(grad.data, outputSize), learningRate)
    {
      gradInput := BackProject(grad, weights);
      var gradWeights := OuterProduct(inputCache, grad, inputSize, outputSize);
      var gradBiases := CopyPrefix(grad, outputSize);
      weights := DescendMatrix(weights, gradWeights, learningRate);
      biases := SubtractScaled(biases, gradBiases, learningRate);
    }

    /** A copy of the weights; nothing changes. */
    method GetWeights() returns (w: Tensor)
      ensures w == weights
    {
      w := weights;
    }

    /** A copy of the biases; nothing changes. */
    method GetBiases() returns (b: Tensor)
      ensures b == biases
    {
      b := biases;
    }
  }

  // ---------------------------------------------------------------------
  // Properties

  /** After backward, W[i, j] is the old W[i, j] minus lr * input_cache[i] * g[j]. */
  lemma WeightUpdateAt(w: Tensor, x: seq<real>, g: seq<real>, lr: real, i: nat, j: nat)
    requires IsMatrix(w) && |w.data| == w.shape[0] * w.shape[1] && |x| >= w.shape[0] && |g| >= w.shape[1]
    requires i < w.shape[0] && j < w.shape[1]
    ensures var r := ScaledDifference(w, Outer(x, g, w.shape[0], w.shape[1]), lr);
      IsMatrix(r) && At2(r, i, j) == At2(w, i, j) - lr * (x[i] * g[j])
  {
    var n, p := w.shape[0], w.shape[1];
    FlattenAt(OuterRows(x, g, n, p), p, i, j);
    Product2(w.shape);
    RowMajorBound(i, j, n, p);
  }

  /** After backward, b[i] is the old b[i] minus lr * g[i]. */
  lemma BiasUpdateAt(b: Tensor, g: seq<real>, lr: real, i: nat)
    requires b.Valid() && |b.shape| == 1 && |b.data| == b.shape[0] && |g| >= b.shape[0] && i < b.shape[0]
    ensures ScaledDifference(b, Prefix(g, b.shape[0]), lr).data[i] == b.data[i] - lr * g[i]
  {
  }

  /** With learning rate 0, backward leaves weights and biases unchanged. */
  lemma ZeroRateKeepsParameters(w: Tensor, b: Tensor, x: seq<real>, g: seq<real>)
    requires IsMatrix(w) && |w.data| == w.shape[0] * w.shape[1] && |x| >= w.shape[0] && |g| >= w.shape[1]
    requires b.Valid() && b.shape == [w.shape[1]] && |b.data| == w.shape[1]
    ensures ScaledDifference(w, Outer(x, g, w.shape[0], w.shape[1]), 0.0) == w
    ensures ScaledDifference(b, Prefix(g, w.shape[1]), 0.0) == b
  {
    ZeroRateKeeps(w, Outer(x, g, w.shape[0], w.shape[1]));
    ZeroRateKeeps(b, Prefix(g, w.shape[1]));
  }

  /** forward is the matrix product of the input as a 1-by-n row with the weights,
      plus the biases. */
  lemma AffineIsDot(x: seq<real>, w: Tensor, b: Tensor, i: nat)
    requires IsMatrix(w) && |x| >= w.shape[0] && |b.data| >= w.shape[1] && i < w.shape[1]
    ensures var row := Tensor([1, w.shape[0]], x[..w.shape[0]]);
      row.Valid() && DotSpec(row, w).Ok? && IsMatrix(DotSpec(row, w).value) &&
      Affine(x, w, b).data[i] == At2(DotSpec(row, w).value, 0, i) + b.data[i]
  {
    var n := w.shape[0];
    var row := Tensor([1, n], x[..n]);
    Product2(row.shape);
    DotAt(row, w, 0, i);
    assert Row(row, 0) == x[..n];
  }

  /** backward's input gradient is the weights times the gradient as a p-by-1 column. */
  lemma BackProjectedIsDot(g: seq<real>, w: Tensor, i: nat)
    requires IsMatrix(w) && |g| >= w.shape[1] && i < w.shape[0]
    ensures var col := Tensor([w.shape[1], 1], g[..w.shape[1]]);
      col.Valid() && DotSpec(w, col).Ok? && IsMatrix(DotSpec(w, col).value) &&
      BackProjected(g, w).data[i] == At2(DotSpec(w, col).value, i, 0)
  {
    var p := w.shape[1];
    var col := Tensor([p, 1], g[..p]);
    Product2(col.shape);
    DotAt(w, col, i, 0);
    assert Col(col, 0) == g[..p];
    InnerSymmetric(g[..p], Row(w, i));
  }

  /** One entry of the column-times-row product. */
  lemma OuterCell(x: seq<real>, g: seq<real>, n: nat, p: nat, i: nat, j: nat)
    requires |x| >= n && |g| >= p && i < n && j < p
    ensures var a, b := Tensor([n, 1], x[..n]), Tensor([1, p], g[..p]);
      a.Valid() && b.Valid() && DotAccepts(a, b) && At2(DotSpec(a, b).value, i, j) == At2(Outer(x, g, n, p), i, j)
  {
    var a, b := Tensor([n, 1], x[..n]), Tensor([1, p], g[..p]);
    Product2(a.shape);
    Product2(b.shape);
    DotAt(a, b, i, j);
    assert Row(a, i) == [x[i]];
    assert Col(b, j) == [g[j]];
    assert Inner([x[i]], [g[j]]) == x[i] * g[j];
    FlattenAt(OuterRows(x, g, n, p), p, i, j);
  }

  /** The weight gradient is the n-by-1 input times the 1-by-p output gradient. */
  lemma OuterIsDot(x: seq<real>, g: seq<real>, n: nat, p: nat)
    requires |x| >= n && |g| >= p
    ensures var a, b := Tensor([n, 1], x[..n]), Tensor([1, p], g[..p]);
      a.Valid() && b.Valid() && DotSpec(a, b) == Ok(Outer(x, g, n, p))
  {
    var a, b := Tensor([n, 1], x[..n]), Tensor([1, p], g[..p]);
    Product2(a.shape);
    Product2(b.shape);
    var d := DotSpec(a, b).value;
    var o := Outer(x, g, n, p);
    forall i, j | 0 <= i < n && 0 <= j < p ensures At2(d, i, j) == At2(o, i, j) {
      OuterCell(x, g, n, p, i, j);
    }
    MatrixExt(d, o);
  }
}

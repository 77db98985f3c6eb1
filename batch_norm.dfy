/**
 * Batch normalisation over a batch_size-by-num_features matrix.  forward
 * checks the input's shape, caches it, computes each feature's batch mean
 * and (biased) variance as mean of squares minus squared mean, moves the
 * running statistics towards them, normalises every element with the batch
 * statistics and finally scales by gamma and shifts by beta.  backward
 * checks the gradient's shape, accumulates the gamma and beta gradients,
 * moves gamma and beta against them, and only then scales the output
 * gradient by the UPDATED gamma over the RUNNING standard deviation.
 */
module BatchNormLayer {
  import opened Sums
  import opened Tensors
  import opened Elementary
  import opened NNUtils
  import opened Optimizers
  import opened Reals

  // ---------------------------------------------------------------------
  // Per-feature statistics of a batch

  /** The batch variance as forward computes it: the mean of the squares minus
      the square of the mean (the biased, population variance). */
  function Variance(s: seq<real>): real
    requires |s| > 0
  {
    Inner(s, s) / (|s| as real) - Mean(s) * Mean(s)
  }

  /** One more element y in the quadratic sum of (s[i] - x)^2, written out as
      Q - 2xS + k x^2. */
  lemma AroundStep(q: real, t: real, k: real, x: real, y: real, q': real, t': real, k': real)
    requires q - 2.0 * x * t + k * (x * x) >= 0.0
    requires q' == q + y * y && t' == t + y && k' == k + 1.0
    ensures q' - 2.0 * x * t' + k' * (x * x) >= 0.0
  {
    Square(y - x, (y - x) * (y - x));
    assert q' - 2.0 * x * t' + k' * (x * x) == (q - 2.0 * x * t + k * (x * x)) + (y - x) * (y - x);
  }

  /** The sum of squared distances of the elements from any point x, expanded,
      is never negative. */
  lemma {:induction false} Around(s: seq<real>, x: real)
    ensures Inner(s, s) - 2.0 * x * Sum(s) + (|s| as real) * (x * x) >= 0.0
    decreases |s|
  {
    if |s| > 0 {
      var n := |s| - 1;
      Around(s[..n], x);
      AroundStep(Inner(s[..n], s[..n]), Sum(s[..n]), n as real, x, s[n], Inner(s, s), Sum(s), |s| as real);
    }
  }

  /** One more element y in k Q - S^2. */
  lemma SpreadStep(q: real, t: real, k: real, y: real, q': real, t': real, k': real)
    requires k * q - t * t >= 0.0 && q - 2.0 * y * t + k * (y * y) >= 0.0
    requires q' == q + y * y && t' == t + y && k' == k + 1.0
    ensures k' * q' - t' * t' >= 0.0
  {
    assert k' * q' - t' * t' == (k * q - t * t) + (q - 2.0 * y * t + k * (y * y));
  }

  /** n * (sum of squares) >= (sum)^2: the Cauchy-Schwarz inequality for s and
      the all-ones vector. */
  lemma {:induction false} Spread(s: seq<real>)
    ensures (|s| as real) * Inner(s, s) - Sum(s) * Sum(s) >= 0.0
    decreases |s|
  {
    if |s| > 0 {
      var n := |s| - 1;
      Spread(s[..n]);
      Around(s[..n], s[n]);
      SpreadStep(Inner(s[..n], s[..n]), Sum(s[..n]), n as real, s[n], Inner(s, s), Sum(s), |s| as real);
    }
  }

  /** q/k - (t/k)^2 = (k q - t^2) / k^2. */
  lemma VarianceAlgebra(q: real, t: real, k: real)
    requires k > 0.0 && k * q - t * t >= 0.0
    ensures q / k - (t / k) * (t / k) >= 0.0
  {
    var m := t / k;
    assert t == k * m;
    var r := q - k * (m * m);
    assert k * q - t * t == k * r;
    assert r == (k * r) / k;
    DivideMonotone(0.0, k * r, k);
    assert q / k - m * m == r / k;
  }

  /** The batch variance is never negative, so var + epsilon > 0 under the square
      root, although forward computes it as a difference. */
  lemma VarianceNonNegative(s: seq<real>)
    requires |s| > 0
    ensures Variance(s) >= 0.0
  {
    Spread(s);
    VarianceAlgebra(Inner(s, s), Sum(s), |s| as real);
  }

  /** The batch mean of every feature (column). */
  function Means(x: Tensor): (r: seq<real>)
    requires IsMatrix(x) && x.shape[0] > 0
    ensures |r| == x.shape[1]
  {
    seq(x.shape[1], j requires 0 <= j < x.shape[1] => Mean(Col(x, j)))
  }

  /** The batch variance of every feature (column). */
  function Variances(x: Tensor): (r: seq<real>)
    requires IsMatrix(x) && x.shape[0] > 0
    ensures |r| == x.shape[1]
  {
    seq(x.shape[1], j requires 0 <= j < x.shape[1] => Variance(Col(x, j)))
  }

  lemma VariancesNonNegative(x: Tensor)
    requires IsMatrix(x) && x.shape[0] > 0
    ensures forall j :: 0 <= j < |Variances(x)| ==> Variances(x)[j] >= 0.0
  {
    forall j | 0 <= j < x.shape[1] ensures Variances(x)[j] >= 0.0 {
      VarianceNonNegative(Col(x, j));
    }
  }

  // ---------------------------------------------------------------------
  // The elementwise rules: element (i, j) combined with two values of feature j

  /** (x - mean) / sqrt(var + epsilon). */
  function Standard(f: Functions, eps: real, x: real, m: real, v: real): real
    requires Sound(f) && eps > 0.0 && v >= 0.0
  {
    SqrtPositive(f, v + eps);
    (x - m) / f.sqrt(v + eps)
  }

  /** gamma * normalized + beta. */
  function Scale(gamma: real, x: real, beta: real): real
  {
    gamma * x + beta
  }

  /** grad_output * gamma / sqrt(running_var + epsilon). */
  function Slope(f: Functions, eps: real, g: real, gamma: real, v: real): real
    requires Sound(f) && eps > 0.0 && v >= 0.0
  {
    SqrtPositive(f, v + eps);
    g * gamma / f.sqrt(v + eps)
  }

  /** The three nested loops over (i, j) in the layer: each writes element (i, j)
      from element (i, j) of a matrix and the values p[j], q[j] of feature j. */
  datatype Rule =
    | Standardize(f: Functions, eps: real)  // p = batch mean, q = batch variance
    | ScaleShift                            // p = gamma, q = beta
    | InputSlope(f: Functions, eps: real)   // p = gamma, q = running variance

  /** The rules that take a square root need q >= 0 and a positive epsilon. */
  ghost predicate Admits(rule: Rule, q: seq<real>)
  {
    rule.ScaleShift? || (Sound(rule.f) && rule.eps > 0.0 && forall j :: 0 <= j < |q| ==> q[j] >= 0.0)
  }

  function RuleValue(rule: Rule, x: real, p: real, q: real): real
    requires rule.ScaleShift? || (Sound(rule.f) && rule.eps > 0.0 && q >= 0.0)
  {
    match rule
    case Standardize(f, eps) => Standard(f, eps, x, p, q)
    case ScaleShift => Scale(p, x, q)
    case InputSlope(f, eps) => Slope(f, eps, x, p, q)
  }

  function ColumnwiseRows(rule: Rule, x: Tensor, p: seq<real>, q: seq<real>): (rows: seq<seq<real>>)
    requires IsMatrix(x) && |p| >= x.shape[1] && |q| >= x.shape[1] && Admits(rule, q)
    ensures |rows| == x.shape[0] && Uniform(rows, x.shape[1]) && |Flatten(rows)| == x.shape[0] * x.shape[1]
  {
    var rows := seq(x.shape[0], i requires 0 <= i < x.shape[0] =>
      seq(x.shape[1], j requires 0 <= j < x.shape[1] => RuleValue(rule, At2(x, i, j), p[j], q[j])));
    FlattenLength(rows, x.shape[1]);
    rows
  }

  /** The matrix of the input's shape with element (i, j) = rule(x[i, j], p[j], q[j]). */
  function Columnwise(rule: Rule, x: Tensor, p: seq<real>, q: seq<real>): (r: Tensor)
    requires IsMatrix(x) && |p| >= x.shape[1] && |q| >= x.shape[1] && Admits(rule, q)
    ensures IsMatrix(r) && r.shape == x.shape && |r.data| == |x.data|
  {
    Product2(x.shape);
    Tensor(x.shape, Flatten(ColumnwiseRows(rule, x, p, q)))
  }

  lemma ColumnwiseAt(rule: Rule, x: Tensor, p: seq<real>, q: seq<real>, i: nat, j: nat)
    requires IsMatrix(x) && |p| >= x.shape[1] && |q| >= x.shape[1] && Admits(rule, q)
    requires i < x.shape[0] && j < x.shape[1]
    ensures At2(Columnwise(rule, x, p, q), i, j) == RuleValue(rule, At2(x, i, j), p[j], q[j])
  {
    FlattenAt(ColumnwiseRows(rule, x, p, q), x.shape[1], i, j);
  }

  /** The normalised batch: every element standardised with its feature's batch
      mean and variance. */
  function Normalization(f: Functions, eps: real, x: Tensor): (r: Tensor)
    requires Sound(f) && eps > 0.0 && IsMatrix(x) && x.shape[0] > 0
    ensures IsMatrix(r) && r.shape == x.shape
  {
    VariancesNonNegative(x);
    Columnwise(Standardize(f, eps), x, Means(x), Variances(x))
  }

  /** grad_gamma: for every feature, the sum over the batch of g * normalized. */
  function GammaGradient(g: Tensor, nz: Tensor): (r: seq<real>)
    requires IsMatrix(g) && IsMatrix(nz) && g.shape == nz.shape
    ensures |r| == g.shape[1]
  {
    seq(g.shape[1], j requires 0 <= j < g.shape[1] => Inner(Col(g, j), Col(nz, j)))
  }

  /** grad_beta: for every feature, the sum over the batch of g. */
  function BetaGradient(g: Tensor): (r: seq<real>)
    requires IsMatrix(g)
    ensures |r| == g.shape[1]
  {
    seq(g.shape[1], j requires 0 <= j < g.shape[1] => Sum(Col(g, j)))
  }

  // ---------------------------------------------------------------------
  // The loops

  /** forward's inner loop over the batch: sum += input({j, i}) and
      sum_sq += input({j, i}) * input({j, i}). */
  method ColumnSums(x: Tensor, i: nat) returns (sum: real, sumSq: real)
    requires IsMatrix(x) && i < x.shape[1]
    ensures sum == Sum(Col(x, i)) && sumSq == Inner(Col(x, i), Col(x, i))
  {
    ghost var col := Col(x, i);
    sum, sumSq := 0.0, 0.0;
    for j := 0 to x.shape[0]
      invariant sum == Sum(col[..j]) && sumSq == Inner(col[..j], col[..j])
    {
      var a := Get2(x, j, i);
      assert a == col[j];
      ProductOfEquals(a, a, col[j], col[j]);
      SumStep(col, j);
      InnerStep(col, col, j);
      sum := sum + a;
      sumSq := sumSq + a * a;
    }
    assert col[..x.shape[0]] == col;
  }

  /** forward's first loop: mean({i}) = sum / batch_size and
      var({i}) = sum_sq / batch_size - mean({i}) * mean({i}). */
  method Statistics(x: Tensor) returns (mean: Tensor, variance: Tensor)
    requires IsMatrix(x) && x.shape[0] > 0
    ensures mean == Tensor([x.shape[1]], Means(x))
    ensures variance == Tensor([x.shape[1]], Variances(x))
  {
    var b, n := x.shape[0], x.shape[1];
    mean := New([n]);
    variance := New([n]);
    Product1([n]);
    for i := 0 to n
      invariant mean.shape == [n] && |mean.data| == n
      invariant variance.shape == [n] && |variance.data| == n
      invariant forall k :: 0 <= k < i ==> mean.data[k] == Mean(Col(x, k))
      invariant forall k :: 0 <= k < i ==> variance.data[k] == Variance(Col(x, k))
    {
      var sum, sumSq := ColumnSums(x, i);
      mean := Set1(mean, i, sum / (b as real));
      var m := Get1(mean, i);
      variance := Set1(variance, i, sumSq / (b as real) - m * m);
    }
  }

  /** forward's second loop: running = momentum * running + (1 - momentum) * batch,
      for the mean and the variance of every feature. */
  method RunningUpdate(rm: Tensor, rv: Tensor, mean: Tensor, variance: Tensor, momentum: real, n: nat)
    returns (newMean: Tensor, newVar: Tensor)
    requires rm.shape == [n] && |rm.data| == n && rv.shape == [n] && |rv.data| == n
    requires mean.shape == [n] && |mean.data| == n && variance.shape == [n] && |variance.data| == n
    ensures newMean == Tensor([n], Averaged(momentum, rm.data, mean.data, n))
    ensures newVar == Tensor([n], Averaged(momentum, rv.data, variance.data, n))
  {
    newMean, newVar := rm, rv;
    for i := 0 to n
      invariant newMean.shape == [n] && |newMean.data| == n && newVar.shape == [n] && |newVar.data| == n
      invariant forall k :: 0 <= k < i ==> newMean.data[k] == Average(momentum, rm.data[k], mean.data[k])
      invariant forall k :: 0 <= k < i ==> newVar.data[k] == Average(momentum, rv.data[k], variance.data[k])
      invariant forall k :: i <= k < n ==> newMean.data[k] == rm.data[k] && newVar.data[k] == rv.data[k]
    {
      var a := Get1(newMean, i);
      var m := Get1(mean, i);
      newMean := Set1(newMean, i, Average(momentum, a, m));
      var b := Get1(newVar, i);
      var v := Get1(variance, i);
      newVar := Set1(newVar, i, Average(momentum, b, v));
    }
    assert newMean.data == Averaged(momentum, rm.data, mean.data, n);
    assert newVar.data == Averaged(momentum, rv.data, variance.data, n);
  }

  /** The nested loops over i < rows and j < columns that write element (i, j) by
      one of the rules (normalising, scaling and shifting, the input gradient). */
  method ColumnwiseMap(rule: Rule, x: Tensor, p: Tensor, q: Tensor) returns (r: Tensor)
    requires IsMatrix(x) && p.Valid() && VectorOfAtLeast(p, x.shape[1])
    requires q.Valid() && VectorOfAtLeast(q, x.shape[1]) && Admits(rule, q.data)
    ensures r == Columnwise(rule, x, p.data, q.data)
  {
    var b, n := x.shape[0], x.shape[1];
    ghost var rows := ColumnwiseRows(rule, x, p.data, q.data);
    ghost var spec := Flatten(rows);
    r := New(x.shape);
    Product2(x.shape);
    ghost var c := 0;
    for i := 0 to b
      invariant IsMatrix(r) && r.shape == x.shape
      invariant c == i * n
      invariant FilledBefore(r.data, spec, c)
    {
      for j := 0 to n
        invariant IsMatrix(r) && r.shape == x.shape
        invariant c == i * n + j
        invariant FilledBefore(r.data, spec, c)
      {
        var a := Get2(x, i, j);
        var pj := Get1(p, j);
        var qj := Get1(q, j);
        var v := RuleValue(rule, a, pj, qj);
        RowMajorBound(i, j, b, n);
        FlattenAt(rows, n, i, j);
        FilledStep(r.data, spec, c, v);
        r := Set2(r, i, j, v);
        c := c + 1;
      }
      assert c == (i + 1) * n;
    }
    assert r.data == spec;
  }

  /** backward's first loop, inner part: sum_gamma += grad_output({i, j}) *
      normalized({i, j}) and sum_beta += grad_output({i, j}) over the batch. */
  method ColumnGradients(g: Tensor, nz: Tensor, j: nat) returns (sumGamma: real, sumBeta: real)
    requires IsMatrix(g) && IsMatrix(nz) && g.shape == nz.shape && j < g.shape[1]
    ensures sumGamma == Inner(Col(g, j), Col(nz, j)) && sumBeta == Sum(Col(g, j))
  {
    ghost var gs, ns := Col(g, j), Col(nz, j);
    sumGamma, sumBeta := 0.0, 0.0;
    for i := 0 to g.shape[0]
      invariant sumGamma == Inner(gs[..i], ns[..i]) && sumBeta == Sum(gs[..i])
    {
      var a := Get2(g, i, j);
      var b := Get2(nz, i, j);
      assert a == gs[i] && b == ns[i];
      ProductOfEquals(a, b, gs[i], ns[i]);
      InnerStep(gs, ns, i);
      SumStep(gs, i);
      sumGamma := sumGamma + a * b;
      sumBeta := sumBeta + a;
    }
    assert gs[..g.shape[0]] == gs && ns[..g.shape[0]] == ns;
  }

  /** backward's first loop: grad_gamma({j}) = sum_gamma and grad_beta({j}) = sum_beta. */
  method ParameterGradients(g: Tensor, nz: Tensor) returns (gg: Tensor, gb: Tensor)
    requires IsMatrix(g) && IsMatrix(nz) && g.shape == nz.shape
    ensures gg == Tensor([g.shape[1]], GammaGradient(g, nz))
    ensures gb == Tensor([g.shape[1]], BetaGradient(g))
  {
    var n := g.shape[1];
    gg := New([n]);
    gb := New([n]);
    Product1([n]);
    for j := 0 to n
      invariant gg.shape == [n] && |gg.data| == n && gb.shape == [n] && |gb.data| == n
      invariant forall k :: 0 <= k < j ==> gg.data[k] == Inner(Col(g, k), Col(nz, k))
      invariant forall k :: 0 <= k < j ==> gb.data[k] == Sum(Col(g, k))
    {
      var sumGamma, sumBeta := ColumnGradients(g, nz, j);
      gg := Set1(gg, j, sumGamma);
      gb := Set1(gb, j, sumBeta);
    }
  }

  /** backward's second loop: gamma({j}) -= lr * grad_gamma({j}) and
      beta({j}) -= lr * grad_beta({j}). */
  method ParameterUpdate(gamma: Tensor, beta: Tensor, gg: Tensor, gb: Tensor, lr: real, n: nat)
    returns (newGamma: Tensor, newBeta: Tensor)
    requires gamma.shape == [n] && |gamma.data| == n && beta.shape == [n] && |beta.data| == n
    requires gg.shape == [n] && |gg.data| == n && gb.shape == [n] && |gb.data| == n
    ensures newGamma == ScaledDifference(gamma, gg, lr)
    ensures newBeta == ScaledDifference(beta, gb, lr)
  {
    ghost var gammaSpec, betaSpec := ScaledDifference(gamma, gg, lr).data, ScaledDifference(beta, gb, lr).data;
    newGamma, newBeta := gamma, beta;
    for j := 0 to n
      invariant newGamma.shape == [n] && newBeta.shape == [n]
      invariant UpdatedBefore(newGamma.data, gammaSpec, gamma.data, j)
      invariant UpdatedBefore(newBeta.data, betaSpec, beta.data, j)
    {
      var a := Get1(newGamma, j);
      var da := Get1(gg, j);
      assert gammaSpec[j] == a - lr * da;
      UpdatedStep(newGamma.data, gammaSpec, gamma.data, j, a - lr * da);
      newGamma := Set1(newGamma, j, a - lr * da);
      var b := Get1(newBeta, j);
      var db := Get1(gb, j);
      assert betaSpec[j] == b - lr * db;
      UpdatedStep(newBeta.data, betaSpec, beta.data, j, b - lr * db);
      newBeta := Set1(newBeta, j, b - lr * db);
    }
    assert newGamma.data == gammaSpec;
    assert newBeta.data == betaSpec;
  }

  class BatchNorm {
    const numFeatures: nat
    const epsilon: real
    const momentum: real
    var gamma: Tensor
    var beta: Tensor
    var runningMean: Tensor
    var runningVar: Tensor
    var inputCache: Tensor
    var normalized: Tensor

    /** A vector of num_features elements. */
    predicate PerFeature(t: Tensor)
    {
      t.Valid() && t.shape == [numFeatures] && |t.data| == numFeatures
    }

    /** forward's shape check: rank 2 with num_features columns. */
    predicate Accepts(input: Tensor)
    {
      |input.shape| == 2 && input.shape[1] == numFeatures
    }

    /** The parameters and running statistics keep one value per feature, the
        running variance is never negative, and the cached input and its
        normalised form share a shape (rank 0 before the first forward). */
    predicate Valid()
      reads this
    {
      epsilon > 0.0 && 0.0 <= momentum <= 1.0 &&
      PerFeature(gamma) && PerFeature(beta) && PerFeature(runningMean) && PerFeature(runningVar) &&
      (forall j :: 0 <= j < numFeatures ==> runningVar.data[j] >= 0.0) &&
      inputCache.Valid() && normalized.Valid() && normalized.shape == inputCache.shape &&
      (|inputCache.shape| == 2 ==> inputCache.shape[1] == numFeatures)
    }

    /** gamma = 1, beta = 0, running mean 0, running variance 1; the caches are
        Tensor({}).  The header's defaults are epsilon = 1e-5 and momentum = 0.9. */
    constructor(numFeatures: nat, epsilon: real, momentum: real)
      requires epsilon > 0.0 && 0.0 <= momentum <= 1.0
      ensures Valid()
      ensures this.numFeatures == numFeatures && this.epsilon == epsilon && this.momentum == momentum
      ensures gamma.data == seq(numFeatures, _ => 1.0) && beta == Zeros([numFeatures])
      ensures runningMean == Zeros([numFeatures]) && runningVar.data == seq(numFeatures, _ => 1.0)
      ensures inputCache == Zeros([]) && normalized == Zeros([])
    {
      this.numFeatures := numFeatures;
      this.epsilon := epsilon;
      this.momentum := momentum;
      Product1([numFeatures]);
      var zero := New([numFeatures]);
      var ones := Fill(zero, 1.0);
      var zeros := Fill(zero, 0.0);
      var mean := Fill(zero, 0.0);
      var variance := Fill(zero, 1.0);
      gamma, beta, runningMean, runningVar := ones, zeros, mean, variance;
      inputCache := Zeros([]);
      normalized := Zeros([]);
    }

    /** Throws on a wrongly shaped input, changing nothing; otherwise caches the
        input and the normalised batch, moves the running statistics and returns
        gamma * normalized + beta. */
    method Forward(f: Functions, input: Tensor) returns (r: Result<Tensor>)
      requires Valid() && Sound(f) && input.Valid()
      requires Accepts(input) ==> input.shape[0] > 0
      modifies this
      ensures Valid()
      ensures !Accepts(input) ==> r == Err(ShapeMismatch) && unchanged(this)
      ensures Accepts(input) ==>
        inputCache == input && normalized == Normalization(f, epsilon, input) &&
        gamma == old(gamma) && beta == old(beta) &&
        r == Ok(Columnwise(ScaleShift, normalized, gamma.data, beta.data)) &&
        runningMean == Tensor([numFeatures], Averaged(momentum, old(runningMean.data), Means(input), numFeatures)) &&
        runningVar == Tensor([numFeatures], Averaged(momentum, old(runningVar.data), Variances(input), numFeatures))
    {
      if !Accepts(input) {
        return Err(ShapeMismatch);
      }
      inputCache := input;
      var mean, variance := Statistics(input);
      VariancesNonNegative(input);
      AveragedNonNegative(momentum, runningVar.data, variance.data, numFeatures);
      runningMean, runningVar := RunningUpdate(runningMean, runningVar, mean, variance, momentum, numFeatures);
      Product1([numFeatures]);
      normalized := ColumnwiseMap(Standardize(f, epsilon), input, mean, variance);
      var output := ColumnwiseMap(ScaleShift, normalized, gamma, beta);
      r := Ok(output);
    }

    /** Throws on a gradient whose shape differs from the cached input's, changing
        nothing; otherwise moves gamma and beta against their gradients and
        returns grad_output * (updated gamma) / sqrt(running_var + epsilon).
        Before the first forward the cache has rank 0, and a rank-0 gradient
        would read the first dimension of an empty shape. */
    method Backward(f: Functions, grad: Tensor, learningRate: real) returns (r: Result<Tensor>)
      requires Valid() && Sound(f) && grad.Valid()
      requires grad.shape == inputCache.shape ==> |inputCache.shape| == 2
      modifies this
      ensures Valid()
      ensures grad.shape != old(inputCache.shape) ==> r == Err(ShapeMismatch) && unchanged(this)
      ensures grad.shape == old(inputCache.shape) ==>
        inputCache == old(inputCache) && normalized == old(normalized) &&
        runningMean == old(runningMean) && runningVar == old(runningVar) &&
        gamma == ScaledDifference(old(gamma), Tensor([numFeatures], GammaGradient(grad, normalized)), learningRate) &&
        beta == ScaledDifference(old(beta), Tensor([numFeatures], BetaGradient(grad)), learningRate) &&
        r == Ok(Columnwise(InputSlope(f, epsilon), grad, gamma.data, runningVar.data))
    {
      if grad.shape != inputCache.shape {
        return Err(ShapeMismatch);
      }
      var gg, gb := ParameterGradients(grad, normalized);
      gamma, beta := ParameterUpdate(gamma, beta, gg, gb, learningRate, numFeatures);
      Product1([numFeatures]);
      var gradInput := ColumnwiseMap(InputSlope(f, epsilon), grad, gamma, runningVar);
      r := Ok(gradInput);
    }
  }

  // ---------------------------------------------------------------------
  // Properties

  /** gamma * x + beta for every element of s. */
  function ScaleAll(s: seq<real>, gamma: real, beta: real): (r: seq<real>)
    ensures |r| == |s|
  {
    seq(|s|, i requires 0 <= i < |s| => Scale(gamma, s[i], beta))
  }

  /** Scaling and shifting scales the sum and adds |s| shifts. */
  lemma {:induction false} ScaleAllSum(s: seq<real>, gamma: real, beta: real)
    ensures Sum(ScaleAll(s, gamma, beta)) == gamma * Sum(s) + (|s| as real) * beta
    decreases |s|
  {
    if |s| > 0 {
      var n := |s| - 1;
      assert ScaleAll(s, gamma, beta)[..n] == ScaleAll(s[..n], gamma, beta);
      ScaleAllSum(s[..n], gamma, beta);
      assert gamma * (Sum(s[..n]) + s[n]) == gamma * Sum(s[..n]) + gamma * s[n];
      assert (n as real + 1.0) * beta == (n as real) * beta + beta;
    }
  }

  /** The loss term sum of g * (gamma * x + beta) is linear in gamma and beta. */
  lemma ScaleAllInner(g: seq<real>, s: seq<real>, gamma: real, beta: real)
    requires |g| == |s|
    ensures Inner(g, ScaleAll(s, gamma, beta)) == gamma * Inner(g, s) + beta * Sum(g)
  {
    var v := seq(|s|, i requires 0 <= i < |s| => gamma * s[i]);
    InnerScaled(g, s, v, gamma);
    InnerShifted(g, v, ScaleAll(s, gamma, beta), beta);
  }

  /** Scaling the second operand by a scales the inner product by a. */
  lemma {:induction false} InnerScaled(g: seq<real>, s: seq<real>, u: seq<real>, a: real)
    requires |g| == |s| == |u|
    requires forall i :: 0 <= i < |u| ==> u[i] == a * s[i]
    ensures Inner(g, u) == a * Inner(g, s)
    decreases |g|
  {
    if |g| > 0 {
      var n := |g| - 1;
      InnerScaled(g[..n], s[..n], u[..n], a);
      Distribute(Inner(g[..n], u[..n]), Inner(g[..n], s[..n]), g[n], s[n], u[n], a);
    }
  }

  lemma Distribute(p: real, q: real, x: real, y: real, z: real, a: real)
    requires p == a * q && z == a * y
    ensures p + x * z == a * (q + x * y)
  {
    assert x * z == a * (x * y);
  }

  /** Shifting the second operand by b adds b times the sum of the first. */
  lemma {:induction false} InnerShifted(g: seq<real>, v: seq<real>, u: seq<real>, b: real)
    requires |g| == |v| == |u|
    requires forall i :: 0 <= i < |u| ==> u[i] == v[i] + b
    ensures Inner(g, u) == Inner(g, v) + b * Sum(g)
    decreases |g|
  {
    if |g| > 0 {
      var n := |g| - 1;
      InnerShifted(g[..n], v[..n], u[..n], b);
      Shift(Inner(g[..n], u[..n]), Inner(g[..n], v[..n]), Sum(g[..n]), g[n], v[n], u[n], b);
    } else {
      ZeroTimes(b, Sum(g));
    }
  }

  lemma Shift(p: real, q: real, r: real, x: real, y: real, z: real, b: real)
    requires p == q + b * r && z == y + b
    ensures p + x * z == (q + x * y) + b * (r + x)
  {
    assert x * z == x * y + b * x;
  }

  /** Column j of the normalised batch is column j of the input shifted by its batch
      mean and divided by sqrt(var + epsilon). */
  lemma NormalizedColumn(f: Functions, eps: real, x: Tensor, j: nat)
    requires Sound(f) && eps > 0.0 && IsMatrix(x) && x.shape[0] > 0 && j < x.shape[1]
    ensures Variance(Col(x, j)) >= 0.0
    ensures f.sqrt(Variance(Col(x, j)) + eps) > 0.0
    ensures Col(Normalization(f, eps, x), j) ==
      ShiftScaled(Col(x, j), Mean(Col(x, j)), f.sqrt(Variance(Col(x, j)) + eps))
  {
    var c := Col(x, j);
    VarianceNonNegative(c);
    SqrtPositive(f, Variance(c) + eps);
    var d := f.sqrt(Variance(c) + eps);
    VariancesNonNegative(x);
    var nz := Normalization(f, eps, x);
    forall i | 0 <= i < x.shape[0] ensures Col(nz, j)[i] == ShiftScaled(c, Mean(c), d)[i] {
      ColumnwiseAt(Standardize(f, eps), x, Means(x), Variances(x), i, j);
    }
  }

  /** Every feature of the normalised batch sums to zero over the batch. */
  lemma NormalizedColumnSumsToZero(f: Functions, eps: real, x: Tensor, j: nat)
    requires Sound(f) && eps > 0.0 && IsMatrix(x) && x.shape[0] > 0 && j < x.shape[1]
    ensures Sum(Col(Normalization(f, eps, x), j)) == 0.0
  {
    NormalizedColumn(f, eps, x, j);
    var c := Col(x, j);
    CenteredSumZero(c, f.sqrt(Variance(c) + eps));
  }

  /** Column j of the forward output is column j of its input scaled by gamma[j]
      and shifted by beta[j]. */
  lemma OutputColumn(nz: Tensor, gamma: seq<real>, beta: seq<real>, j: nat)
    requires IsMatrix(nz) && |gamma| >= nz.shape[1] && |beta| >= nz.shape[1] && j < nz.shape[1]
    ensures Col(Columnwise(ScaleShift, nz, gamma, beta), j) == ScaleAll(Col(nz, j), gamma[j], beta[j])
  {
    forall i | 0 <= i < nz.shape[0]
      ensures Col(Columnwise(ScaleShift, nz, gamma, beta), j)[i] == ScaleAll(Col(nz, j), gamma[j], beta[j])[i]
    {
      ColumnwiseAt(ScaleShift, nz, gamma, beta, i, j);
    }
  }

  /** Scaling and shifting a sequence that sums to zero gives mean beta. */
  lemma ShiftedMean(c: seq<real>, out: seq<real>, gamma: real, beta: real)
    requires |c| > 0 && Sum(c) == 0.0 && out == ScaleAll(c, gamma, beta)
    ensures Mean(out) == beta
  {
    ScaleAllSum(c, gamma, beta);
    ZeroTimes(gamma, Sum(c));
    CancelCount(|out| as real, beta, Sum(out));
  }

  lemma CancelCount(n: real, b: real, r: real)
    requires n > 0.0 && r == n * b
    ensures r / n == b
  {
  }

  /** Over the batch, every output feature j has mean beta[j]: the normalised
      column sums to zero, whatever gamma is. */
  lemma OutputColumnMean(f: Functions, eps: real, x: Tensor, gamma: seq<real>, beta: seq<real>, j: nat)
    requires Sound(f) && eps > 0.0 && IsMatrix(x) && x.shape[0] > 0 && j < x.shape[1]
    requires |gamma| >= x.shape[1] && |beta| >= x.shape[1]
    ensures Mean(Col(Columnwise(ScaleShift, Normalization(f, eps, x), gamma, beta), j)) == beta[j]
  {
    var nz := Normalization(f, eps, x);
    OutputColumn(nz, gamma, beta, j);
    NormalizedColumnSumsToZero(f, eps, x, j);
    ShiftedMean(Col(nz, j), Col(Columnwise(ScaleShift, nz, gamma, beta), j), gamma[j], beta[j]);
  }

  /** The loss term sum over the batch of g * output for feature j is
      gamma[j] * grad_gamma[j] + beta[j] * grad_beta[j]: grad_gamma and grad_beta
      are its partial derivatives. */
  lemma ParameterGradientsAreCoefficients(g: Tensor, nz: Tensor, gamma: seq<real>, beta: seq<real>, j: nat)
    requires IsMatrix(g) && IsMatrix(nz) && g.shape == nz.shape && j < g.shape[1]
    requires |gamma| >= nz.shape[1] && |beta| >= nz.shape[1]
    ensures GammaGradient(g, nz)[j] == Inner(Col(g, j), Col(nz, j)) && BetaGradient(g)[j] == Sum(Col(g, j))
    ensures Inner(Col(g, j), Col(Columnwise(ScaleShift, nz, gamma, beta), j)) ==
      gamma[j] * Inner(Col(g, j), Col(nz, j)) + beta[j] * Sum(Col(g, j))
  {
    GradientEntries(g, nz, j);
    OutputInner(g, nz, gamma, beta, j);
  }

  /** The loss term for feature j, expanded by the columns of g and nz. */
  lemma OutputInner(g: Tensor, nz: Tensor, gamma: seq<real>, beta: seq<real>, j: nat)
    requires IsMatrix(g) && IsMatrix(nz) && g.shape == nz.shape && j < g.shape[1]
    requires |gamma| >= nz.shape[1] && |beta| >= nz.shape[1]
    ensures Inner(Col(g, j), Col(Columnwise(ScaleShift, nz, gamma, beta), j)) ==
      gamma[j] * Inner(Col(g, j), Col(nz, j)) + beta[j] * Sum(Col(g, j))
  {
    OutputColumn(nz, gamma, beta, j);
    Coefficients(Col(g, j), Col(nz, j), Col(Columnwise(ScaleShift, nz, gamma, beta), j), gamma[j], beta[j]);
  }

  /** Feature j of grad_gamma and grad_beta, as sums over column j. */
  lemma GradientEntries(g: Tensor, nz: Tensor, j: nat)
    requires IsMatrix(g) && IsMatrix(nz) && g.shape == nz.shape && j < g.shape[1]
    ensures GammaGradient(g, nz)[j] == Inner(Col(g, j), Col(nz, j)) && BetaGradient(g)[j] == Sum(Col(g, j))
  {
  }

  /** ParameterGradientsAreCoefficients on the columns. */
  lemma Coefficients(gc: seq<real>, nc: seq<real>, oc: seq<real>, a: real, b: real)
    requires |gc| == |nc| && oc == ScaleAll(nc, a, b)
    ensures Inner(gc, oc) == a * Inner(gc, nc) + b * Sum(gc)
  {
    ScaleAllInner(gc, nc, a, b);
  }


  /** grad_input is the derivative of g * output with respect to the input when the
      mean and variance are held fixed: moving x by delta moves that term by
      delta times grad_input.  backward holds them at the running variance (and
      the updated gamma), not at the batch statistics forward used. */
  lemma InputGradientIsFrozenDerivative(f: Functions, eps: real, g: real, gamma: real, beta: real,
                                        x: real, delta: real, m: real, v: real)
    requires Sound(f) && eps > 0.0 && v >= 0.0
    ensures g * (Scale(gamma, Standard(f, eps, x + delta, m, v), beta) - Scale(gamma, Standard(f, eps, x, m, v), beta))
      == delta * Slope(f, eps, g, gamma, v)
  {
    SqrtPositive(f, v + eps);
    var d := f.sqrt(v + eps);
    assert Standard(f, eps, x + delta, m, v) - Standard(f, eps, x, m, v) == delta / d;
    assert Scale(gamma, Standard(f, eps, x + delta, m, v), beta) - Scale(gamma, Standard(f, eps, x, m, v), beta)
      == gamma * (delta / d);
    assert g * (gamma * (delta / d)) == delta * (g * gamma / d);
  }

  /** With momentum 1 the running statistics never move; with momentum 0 they are
      replaced by the batch statistics. */
  lemma RunningExtremes(running: seq<real>, batch: seq<real>)
    requires |batch| == |running|
    ensures Averaged(1.0, running, batch, |running|) == running
    ensures Averaged(0.0, running, batch, |running|) == batch
  {
    assert forall i :: 0 <= i < |running| ==> Average(1.0, running[i], batch[i]) == running[i];
    assert forall i :: 0 <= i < |running| ==> Average(0.0, running[i], batch[i]) == batch[i];
  }

  /** For 0 <= momentum <= 1 each running statistic lies between its previous value
      and the batch value, so the running variance stays non-negative. */
  lemma RunningBetween(momentum: real, running: seq<real>, batch: seq<real>, i: nat)
    requires 0.0 <= momentum <= 1.0 && |batch| == |running| && i < |running|
    ensures var r := Averaged(momentum, running, batch, |running|)[i];
      (running[i] <= batch[i] ==> running[i] <= r <= batch[i]) &&
      (batch[i] <= running[i] ==> batch[i] <= r <= running[i])
  {
    AverageBetween(momentum, running[i], batch[i]);
  }
}

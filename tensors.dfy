/**
 * The Tensor primitive: a shape plus a flat row-major data vector.
 *
 * A Tensor is a value (the C++ class is copied on assignment, and no two
 * tensors share storage), so it is a datatype here; operations that fill a
 * fresh result element by element are methods with loops, each proved
 * against a specification function of its inputs.  Elements are reals.
 */
module Tensors {
  import opened Sums

  /** The two kinds of error the core raises: a shape that an operation does not
      accept, and a hyperparameter outside its domain. */
  datatype Error = ShapeMismatch | InvalidConfiguration

  /** An operation that may throw. */
  datatype Result<T> = Ok(value: T) | Err(error: Error)

  /** Number of elements of a shape: the product of its dimensions. */
  function Product(s: seq<nat>): nat
    decreases |s|
  {
    if |s| == 0 then 1 else s[0] * Product(s[1..])
  }

  datatype Tensor = Tensor(shape: seq<nat>, data: seq<real>) {
    /** The data vector holds exactly one element per coordinate. */
    predicate Valid()
    {
      |data| == Product(shape)
    }
  }

  /** The zero tensor of a shape (what the constructor builds). */
  function Zeros(shape: seq<nat>): (t: Tensor)
    ensures t.Valid() && t.shape == shape
  {
    Tensor(shape, seq(Product(shape), _ => 0.0))
  }

  /** Whether every single-coordinate access t({i}), i < size, is accepted by the
      accessor: it demands as many coordinates as the rank, so either the rank is 1
      or there is no element to visit. */
  predicate FlatIndexable(t: Tensor)
  {
    |t.shape| == 1 || |t.data| == 0
  }

  /** Row-major offset of a coordinate list: sum of ix[i] times the product of the
      dimensions after i (the last dimension varies fastest). */
  function Offset(shape: seq<nat>, ix: seq<nat>): nat
    requires |ix| == |shape|
    decreases |shape|
  {
    if |shape| == 0 then 0 else ix[0] * Product(shape[1..]) + Offset(shape[1..], ix[1..])
  }

  /** Each coordinate is below its dimension. */
  predicate InBounds(shape: seq<nat>, ix: seq<nat>)
  {
    |ix| == |shape| && forall i :: 0 <= i < |ix| ==> ix[i] < shape[i]
  }

  // ---------------------------------------------------------------------
  // Shape arithmetic

  lemma {:induction false} ProductSnoc(s: seq<nat>, x: nat)
    ensures Product(s + [x]) == Product(s) * x
    decreases |s|
  {
    if |s| > 0 {
      assert (s + [x])[1..] == s[1..] + [x];
      ProductSnoc(s[1..], x);
    }
  }

  /** An in-bounds coordinate has an offset strictly below the number of elements. */
  lemma {:induction false} OffsetBound(shape: seq<nat>, ix: seq<nat>)
    requires InBounds(shape, ix)
    ensures Offset(shape, ix) < Product(shape)
    decreases |shape|
  {
    if |shape| > 0 {
      OffsetBound(shape[1..], ix[1..]);
      var p := Product(shape[1..]);
      MulMonotone(ix[0] + 1, shape[0], p);
      assert (ix[0] + 1) * p == ix[0] * p + p;
      assert Offset(shape, ix) == ix[0] * p + Offset(shape[1..], ix[1..]);
      assert Product(shape) == shape[0] * p;
    }
  }

  /** Distinct in-bounds coordinates have distinct offsets. */
  lemma {:induction false} OffsetInjective(shape: seq<nat>, ix: seq<nat>, jx: seq<nat>)
    requires InBounds(shape, ix) && InBounds(shape, jx)
    requires Offset(shape, ix) == Offset(shape, jx)
    ensures ix == jx
    decreases |shape|
  {
    if |shape| > 0 {
      OffsetBound(shape[1..], ix[1..]);
      OffsetBound(shape[1..], jx[1..]);
      RowMajorInjective(ix[0], Offset(shape[1..], ix[1..]), jx[0], Offset(shape[1..], jx[1..]), Product(shape[1..]));
      OffsetInjective(shape[1..], ix[1..], jx[1..]);
      assert ix == [ix[0]] + ix[1..];
      assert jx == [jx[0]] + jx[1..];
    }
  }

  lemma Product1(s: seq<nat>)
    requires |s| == 1
    ensures Product(s) == s[0]
  {
    assert s[1..] == [];
  }

  lemma Product2(s: seq<nat>)
    requires |s| == 2
    ensures Product(s) == s[0] * s[1]
  {
    Product1(s[1..]);
  }

  lemma Product3(s: seq<nat>)
    requires |s| == 3
    ensures Product(s) == s[0] * s[1] * s[2]
  {
    Product2(s[1..]);
    assert s[0] * (s[1] * s[2]) == s[0] * s[1] * s[2];
  }

  lemma Product4(s: seq<nat>)
    requires |s| == 4
    ensures Product(s) == s[0] * s[1] * s[2] * s[3]
  {
    Product3(s[1..]);
    assert s[0] * (s[1] * s[2] * s[3]) == s[0] * s[1] * s[2] * s[3];
  }

  lemma OffsetSingle(shape: seq<nat>, i: nat)
    requires |shape| == 1
    ensures Offset(shape, [i]) == i
  {
    assert shape[1..] == [];
  }

  lemma Offset2(shape: seq<nat>, i: nat, j: nat)
    requires |shape| == 2
    ensures Offset(shape, [i, j]) == i * shape[1] + j
  {
    assert [i, j][1..] == [j];
    OffsetSingle(shape[1..], j);
    Product1(shape[1..]);
  }

  lemma Offset3(shape: seq<nat>, c: nat, h: nat, w: nat)
    requires |shape| == 3
    ensures Offset(shape, [c, h, w]) == (c * shape[1] + h) * shape[2] + w
  {
    assert [c, h, w][1..] == [h, w];
    Offset2(shape[1..], h, w);
    Product2(shape[1..]);
    var s1, s2 := shape[1], shape[2];
    assert c * (s1 * s2) + (h * s2 + w) == (c * s1 + h) * s2 + w;
  }

  /** The regrouping behind Offset4, on plain integers. */
  lemma Regroup4(a: int, b: int, c: int, d: int, s1: int, s2: int, s3: int)
    ensures a * (s1 * s2 * s3) + ((b * s2 + c) * s3 + d) == ((a * s1 + b) * s2 + c) * s3 + d
  {
    assert a * (s1 * s2 * s3) == (a * s1) * s2 * s3;
    assert (a * s1 + b) * s2 == (a * s1) * s2 + b * s2;
    assert ((a * s1) * s2 + b * s2 + c) * s3 == (a * s1) * s2 * s3 + (b * s2 + c) * s3;
  }

  lemma Offset4(shape: seq<nat>, a: nat, b: nat, c: nat, d: nat)
    requires |shape| == 4
    ensures Offset(shape, [a, b, c, d]) == ((a * shape[1] + b) * shape[2] + c) * shape[3] + d
  {
    assert [a, b, c, d][1..] == [b, c, d];
    var rest := shape[1..];
    Offset3(rest, b, c, d);
    Product3(rest);
    Regroup4(a, b, c, d, rest[0], rest[1], rest[2]);
  }

  // ---------------------------------------------------------------------
  // Construction and element access

  /** Tensor(shape): multiplies the dimensions together and zero-fills that many elements. */
  method New(shape: seq<nat>) returns (t: Tensor)
    ensures t.Valid() && t.shape == shape && |t.data| == Product(shape)
    ensures forall i :: 0 <= i < |t.data| ==> t.data[i] == 0.0
    ensures t == Zeros(shape)
  {
    var total: nat := 1;
    for k := 0 to |shape|
      invariant total == Product(shape[..k])
    {
      assert shape[..k + 1] == shape[..k] + [shape[k]];
      ProductSnoc(shape[..k], shape[k]);
      total := total * shape[k];
    }
    assert shape[..|shape|] == shape;
    t := Tensor(shape, seq(total, _ => 0.0));
  }

  /** The offset loop of operator(): walks the dimensions from the last to the first,
      accumulating index += ix[i] * stride and stride *= shape[i]. */
  method Index(shape: seq<nat>, ix: seq<nat>) returns (index: nat)
    requires |ix| == |shape|
    ensures index == Offset(shape, ix)
  {
    index := 0;
    var stride: nat := 1;
    var i := |shape| - 1;
    while i >= 0
      invariant -1 <= i < |shape|
      invariant index == Offset(shape[i + 1..], ix[i + 1..])
      invariant stride == Product(shape[i + 1..])
    {
      assert shape[i..][1..] == shape[i + 1..];
      assert ix[i..][1..] == ix[i + 1..];
      index := index + ix[i] * stride;
      stride := stride * shape[i];
      i := i - 1;
    }
    assert shape[0..] == shape && ix[0..] == ix;
  }

  /** Element at a coordinate: the value operator() reads. */
  function At(t: Tensor, ix: seq<nat>): real
    requires |ix| == |t.shape| && Offset(t.shape, ix) < |t.data|
  {
    t.data[Offset(t.shape, ix)]
  }

  /** operator() used for reading.  It asserts that there are as many coordinates as
      dimensions; it does not check the bounds, so the offset must fall in the data. */
  method Get(t: Tensor, ix: seq<nat>) returns (v: real)
    requires |ix| == |t.shape|
    requires Offset(t.shape, ix) < |t.data|
    ensures v == At(t, ix)
  {
    var index := Index(t.shape, ix);
    v := t.data[index];
  }

  /** operator() used for writing: t(ix) = v on a copy of t. */
  method Set(t: Tensor, ix: seq<nat>, v: real) returns (r: Tensor)
    requires |ix| == |t.shape|
    requires Offset(t.shape, ix) < |t.data|
    ensures r.shape == t.shape && |r.data| == |t.data|
    ensures r.data[Offset(t.shape, ix)] == v
    ensures forall k :: 0 <= k < |t.data| && k != Offset(t.shape, ix) ==> r.data[k] == t.data[k]
    ensures r == t.(data := t.data[Offset(t.shape, ix) := v])
  {
    var index := Index(t.shape, ix);
    r := t.(data := t.data[index := v]);
  }

  /** t({i}) on a vector. */
  method Get1(t: Tensor, i: nat) returns (v: real)
    requires |t.shape| == 1 && i < |t.data|
    ensures v == t.data[i]
  {
    OffsetSingle(t.shape, i);
    v := Get(t, [i]);
  }

  /** t({i}) = v on a copy of a vector. */
  method Set1(t: Tensor, i: nat, v: real) returns (r: Tensor)
    requires |t.shape| == 1 && i < |t.data|
    ensures r == t.(data := t.data[i := v])
  {
    OffsetSingle(t.shape, i);
    r := Set(t, [i], v);
  }

  /** fill(value): every element becomes value; the shape is kept. */
  method Fill(t: Tensor, value: real) returns (r: Tensor)
    ensures r.shape == t.shape && |r.data| == |t.data|
    ensures forall i :: 0 <= i < |r.data| ==> r.data[i] == value
  {
    r := t;
    for i := 0 to |t.data|
      invariant r.shape == t.shape && |r.data| == |t.data|
      invariant forall k :: 0 <= k < i ==> r.data[k] == value
    {
      r := r.(data := r.data[i := value]);
    }
  }

  // ---------------------------------------------------------------------
  // Elementwise arithmetic

  datatype Op = Plus | Minus | Times

  function Apply(op: Op, x: real, y: real): real
  {
    match op
    case Plus => x + y
    case Minus => x - y
    case Times => x * y
  }

  /** Elementwise a op b: a shape mismatch is an error, otherwise element i of the
      result is a[i] op b[i]. */
  function Pointwise(op: Op, a: Tensor, b: Tensor): Result<Tensor>
    requires a.Valid() && b.Valid()
  {
    if a.shape != b.shape then Err(ShapeMismatch)
    else Ok(Tensor(a.shape, seq(|a.data|, i requires 0 <= i < |a.data| => Apply(op, a.data[i], b.data[i]))))
  }

  /** The loop shared by operator+, operator- and operator*: check the shapes, then
      write result({i}) = data[i] op other({i}) for every i below size(). */
  method Combine(op: Op, a: Tensor, b: Tensor) returns (r: Result<Tensor>)
    requires a.Valid() && b.Valid()
    requires a.shape == b.shape ==> FlatIndexable(a)
    ensures r == Pointwise(op, a, b)
  {
    if a.shape != b.shape {
      return Err(ShapeMismatch);
    }
    var result := New(a.shape);
    for i := 0 to |a.data|
      invariant result.shape == a.shape && |result.data| == |a.data|
      invariant forall k :: 0 <= k < i ==> result.data[k] == Apply(op, a.data[k], b.data[k])
    {
      OffsetSingle(b.shape, i);
      var y := Get(b, [i]);
      result := Set(result, [i], Apply(op, a.data[i], y));
    }
    r := Ok(result);
    assert result == Pointwise(op, a, b).value;
  }

  /** operator+: a ShapeMismatch error when the shapes differ, otherwise the
      elementwise sum with the operands' shape. */
  method Add(a: Tensor, b: Tensor) returns (r: Result<Tensor>)
    requires a.Valid() && b.Valid()
    requires a.shape == b.shape ==> FlatIndexable(a)
    ensures r.Err? <==> a.shape != b.shape
    ensures r.Err? ==> r.error == ShapeMismatch
    ensures r.Ok? ==> r.value.Valid() && r.value.shape == a.shape && |r.value.data| == |a.data|
    ensures r.Ok? ==> forall i :: 0 <= i < |a.data| ==> r.value.data[i] == a.data[i] + b.data[i]
    ensures r == Pointwise(Plus, a, b)
  {
    r := Combine(Plus, a, b);
  }

  /** operator- (tensor minus tensor). */
  method Subtract(a: Tensor, b: Tensor) returns (r: Result<Tensor>)
    requires a.Valid() && b.Valid()
    requires a.shape == b.shape ==> FlatIndexable(a)
    ensures r.Err? <==> a.shape != b.shape
    ensures r.Err? ==> r.error == ShapeMismatch
    ensures r.Ok? ==> r.value.Valid() && r.value.shape == a.shape && |r.value.data| == |a.data|
    ensures r.Ok? ==> forall i :: 0 <= i < |a.data| ==> r.value.data[i] == a.data[i] - b.data[i]
    ensures r == Pointwise(Minus, a, b)
  {
    r := Combine(Minus, a, b);
  }

  /** operator* (elementwise product). */
  method Multiply(a: Tensor, b: Tensor) returns (r: Result<Tensor>)
    requires a.Valid() && b.Valid()
    requires a.shape == b.shape ==> FlatIndexable(a)
    ensures r.Err? <==> a.shape != b.shape
    ensures r.Err? ==> r.error == ShapeMismatch
    ensures r.Ok? ==> r.value.Valid() && r.value.shape == a.shape && |r.value.data| == |a.data|
    ensures r.Ok? ==> forall i :: 0 <= i < |a.data| ==> r.value.data[i] == a.data[i] * b.data[i]
    ensures r == Pointwise(Times, a, b)
  {
    r := Combine(Times, a, b);
  }

  /** The elementwise operators accept exactly the operands of equal shape that are
      rank 1 or empty: a rank-2 operand with an element trips the coordinate-count
      assertion at the first write result({0}). */
  lemma SingleCoordinateWrite(t: Tensor)
    requires t.Valid() && |t.data| > 0
    ensures (|[0]| == |t.shape| && Offset(t.shape, [0]) < |t.data|) <==> FlatIndexable(t)
  {
    if |t.shape| == 1 {
      OffsetSingle(t.shape, 0);
    }
  }

  /** For operands of one shape, (a + b) - b is a again (over the reals). */
  lemma AddThenSubtract(a: Tensor, b: Tensor)
    requires a.Valid() && b.Valid() && a.shape == b.shape
    ensures Pointwise(Plus, a, b).Ok?
    ensures Pointwise(Minus, Pointwise(Plus, a, b).value, b) == Ok(a)
  {
    var s := Pointwise(Plus, a, b).value;
    var d := Pointwise(Minus, s, b).value;
    assert d.data == a.data by {
      forall i | 0 <= i < |a.data| ensures d.data[i] == a.data[i] {
        assert s.data[i] == a.data[i] + b.data[i];
      }
    }
  }

  /** operator-(int value, tensor): value - tensor({i}) elementwise, with no shape check. */
  method ScalarMinus(value: int, t: Tensor) returns (r: Tensor)
    requires t.Valid() && FlatIndexable(t)
    ensures r.Valid() && r.shape == t.shape && |r.data| == |t.data|
    ensures forall i :: 0 <= i < |t.data| ==> r.data[i] == value as real - t.data[i]
  {
    r := New(t.shape);
    for i := 0 to |t.data|
      invariant r.shape == t.shape && |r.data| == |t.data|
      invariant forall k :: 0 <= k < i ==> r.data[k] == value as real - t.data[k]
    {
      OffsetSingle(t.shape, i);
      var x := Get(t, [i]);
      r := Set(r, [i], value as real - x);
    }
  }

  // ---------------------------------------------------------------------
  // Matrices: dot and transpose

  predicate IsMatrix(t: Tensor)
  {
    t.Valid() && |t.shape| == 2
  }

  /** t({i, j}) on a matrix. */
  function At2(t: Tensor, i: nat, j: nat): real
    requires IsMatrix(t) && i < t.shape[0] && j < t.shape[1]
  {
    Product2(t.shape);
    RowMajorBound(i, j, t.shape[0], t.shape[1]);
    t.data[i * t.shape[1] + j]
  }

  /** The two-coordinate accessor reads t.data at i * columns + j. */
  lemma At2IsAccessor(t: Tensor, i: nat, j: nat)
    requires IsMatrix(t) && i < t.shape[0] && j < t.shape[1]
    ensures Offset(t.shape, [i, j]) < |t.data|
    ensures At(t, [i, j]) == At2(t, i, j)
  {
    Offset2(t.shape, i, j);
    Product2(t.shape);
    RowMajorBound(i, j, t.shape[0], t.shape[1]);
  }

  /** t({i, j}) on a matrix. */
  method Get2(t: Tensor, i: nat, j: nat) returns (v: real)
    requires IsMatrix(t) && i < t.shape[0] && j < t.shape[1]
    ensures v == At2(t, i, j)
  {
    At2IsAccessor(t, i, j);
    v := Get(t, [i, j]);
  }

  /** t({i, j}) = v on a copy of a matrix. */
  method Set2(t: Tensor, i: nat, j: nat, v: real) returns (r: Tensor)
    requires IsMatrix(t) && i < t.shape[0] && j < t.shape[1]
    ensures i * t.shape[1] + j < |t.data|
    ensures r == t.(data := t.data[i * t.shape[1] + j := v])
  {
    At2IsAccessor(t, i, j);
    Offset2(t.shape, i, j);
    r := Set(t, [i, j], v);
  }

  function Row(t: Tensor, i: nat): (r: seq<real>)
    requires IsMatrix(t) && i < t.shape[0]
    ensures |r| == t.shape[1]
  {
    seq(t.shape[1], k requires 0 <= k < t.shape[1] => At2(t, i, k))
  }

  function Col(t: Tensor, j: nat): (c: seq<real>)
    requires IsMatrix(t) && j < t.shape[1]
    ensures |c| == t.shape[0]
  {
    seq(t.shape[0], k requires 0 <= k < t.shape[0] => At2(t, k, j))
  }

  /** Two m-by-n matrices that agree at every coordinate are equal. */
  lemma MatrixExt(a: Tensor, b: Tensor)
    requires IsMatrix(a) && IsMatrix(b) && a.shape == b.shape
    requires forall i, j :: 0 <= i < a.shape[0] && 0 <= j < a.shape[1] ==> At2(a, i, j) == At2(b, i, j)
    ensures a == b
  {
    var m, n := a.shape[0], a.shape[1];
    Product2(a.shape);
    forall q | 0 <= q < m * n ensures a.data[q] == b.data[q] {
      var i, j := q / n, q % n;
      assert q == i * n + j;
      if i >= m {
        MulMonotone(m, i, n);
        assert false;
      }
      assert At2(a, i, j) == At2(b, i, j);
    }
  }

  /** A matrix given by its rows. */
  lemma FromRows(t: Tensor, rows: seq<seq<real>>)
    requires IsMatrix(t) && |rows| == t.shape[0] && Uniform(rows, t.shape[1])
    requires forall i, j :: 0 <= i < t.shape[0] && 0 <= j < t.shape[1] ==> At2(t, i, j) == rows[i][j]
    ensures t.data == Flatten(rows)
  {
    var f := Tensor(t.shape, Flatten(rows));
    FlattenLength(rows, t.shape[1]);
    Product2(t.shape);
    forall i, j | 0 <= i < t.shape[0] && 0 <= j < t.shape[1] ensures At2(f, i, j) == At2(t, i, j) {
      FlattenAt(rows, t.shape[1], i, j);
    }
    MatrixExt(f, t);
  }

  predicate DotAccepts(a: Tensor, b: Tensor)
  {
    |a.shape| == 2 && |b.shape| == 2 && a.shape[1] == b.shape[0]
  }

  /** Row i of a times column j of b. */
  function DotEntry(a: Tensor, b: Tensor, i: nat, j: nat): real
    requires a.Valid() && b.Valid() && DotAccepts(a, b) && i < a.shape[0] && j < b.shape[1]
  {
    Inner(Row(a, i), Col(b, j))
  }

  function DotRows(a: Tensor, b: Tensor): (rows: seq<seq<real>>)
    requires a.Valid() && b.Valid() && DotAccepts(a, b)
    ensures |rows| == a.shape[0] && Uniform(rows, b.shape[1])
    ensures |Flatten(rows)| == a.shape[0] * b.shape[1]
  {
    var m, p := a.shape[0], b.shape[1];
    var rows := seq(m, i requires 0 <= i < m => seq(p, j requires 0 <= j < p => DotEntry(a, b, i, j)));
    FlattenLength(rows, p);
    rows
  }

  /** The definition of dot: an error unless both operands are matrices whose inner
      dimensions agree; otherwise the m-by-p matrix of row-by-column inner products. */
  function DotSpec(a: Tensor, b: Tensor): (r: Result<Tensor>)
    requires a.Valid() && b.Valid()
    ensures r.Err? <==> !DotAccepts(a, b)
    ensures r.Err? ==> r.error == ShapeMismatch
    ensures r.Ok? ==> IsMatrix(r.value) && r.value.shape == [a.shape[0], b.shape[1]]
  {
    if !DotAccepts(a, b) then Err(ShapeMismatch)
    else
      Product2([a.shape[0], b.shape[1]]);
      Ok(Tensor([a.shape[0], b.shape[1]], Flatten(DotRows(a, b))))
  }

  /** The innermost loop of dot: sum += a({i, k}) * b({k, j}) over k. */
  method RowTimesColumn(a: Tensor, b: Tensor, i: nat, j: nat) returns (sum: real)
    requires a.Valid() && b.Valid() && DotAccepts(a, b) && i < a.shape[0] && j < b.shape[1]
    ensures sum == DotEntry(a, b, i, j)
  {
    sum := 0.0;
    for k := 0 to a.shape[1]
      invariant sum == Inner(Row(a, i)[..k], Col(b, j)[..k])
    {
      InnerStep(Row(a, i), Col(b, j), k);
      sum := sum + At2(a, i, k) * At2(b, k, j);
    }
    assert Row(a, i)[..a.shape[1]] == Row(a, i);
    assert Col(b, j)[..a.shape[1]] == Col(b, j);
  }

  /** r agrees with spec below position c. */
  ghost predicate FilledBefore(r: seq<real>, spec: seq<real>, c: nat)
  {
    |r| == |spec| && c <= |r| && forall q :: 0 <= q < c ==> r[q] == spec[q]
  }

  /** Writing the next element in row-major order extends the agreement by one. */
  lemma FilledStep(r: seq<real>, spec: seq<real>, c: nat, v: real)
    requires FilledBefore(r, spec, c) && c < |r| && spec[c] == v
    ensures FilledBefore(r[c := v], spec, c + 1)
  {
  }

  /** r agrees with spec below position c and still holds orig from c on: an
      in-place update that has visited the first c elements. */
  ghost predicate UpdatedBefore(r: seq<real>, spec: seq<real>, orig: seq<real>, c: nat)
  {
    |r| == |spec| == |orig| && c <= |r| &&
    (forall q :: 0 <= q < c ==> r[q] == spec[q]) &&
    (forall q :: c <= q < |r| ==> r[q] == orig[q])
  }

  lemma UpdatedStep(r: seq<real>, spec: seq<real>, orig: seq<real>, c: nat, v: real)
    requires UpdatedBefore(r, spec, orig, c) && c < |r| && spec[c] == v
    ensures UpdatedBefore(r[c := v], spec, orig, c + 1)
  {
  }

  /** dot: the triple loop that sums a({i, k}) * b({k, j}) over k into result({i, j}). */
  method Dot(a: Tensor, b: Tensor) returns (r: Result<Tensor>)
    requires a.Valid() && b.Valid()
    ensures r == DotSpec(a, b)
  {
    if |a.shape| != 2 || |b.shape| != 2 || a.shape[1] != b.shape[0] {
      return Err(ShapeMismatch);
    }
    var m, p := a.shape[0], b.shape[1];
    ghost var rows := DotRows(a, b);
    ghost var spec := Flatten(rows);
    var result := New([m, p]);
    Product2([m, p]);
    ghost var c := 0;
    for i := 0 to m
      invariant result.shape == [m, p]
      invariant c == i * p
      invariant FilledBefore(result.data, spec, c)
    {
      for j := 0 to p
        invariant result.shape == [m, p]
        invariant c == i * p + j
        invariant FilledBefore(result.data, spec, c)
      {
        var sum := RowTimesColumn(a, b, i, j);
        FlattenAt(rows, p, i, j);
        FilledStep(result.data, spec, c, sum);
        result := result.(data := result.data[i * p + j := sum]);
        c := c + 1;
      }
      assert c == (i + 1) * p;
    }
    assert result.data == spec;
    r := Ok(result);
  }

  /** Entry (i, j) of dot is the sum over k of a[i, k] * b[k, j]. */
  lemma DotAt(a: Tensor, b: Tensor, i: nat, j: nat)
    requires a.Valid() && b.Valid() && DotAccepts(a, b)
    requires i < a.shape[0] && j < b.shape[1]
    ensures DotSpec(a, b).Ok? && IsMatrix(DotSpec(a, b).value)
    ensures At2(DotSpec(a, b).value, i, j) == Inner(Row(a, i), Col(b, j))
  {
    FlattenAt(DotRows(a, b), b.shape[1], i, j);
    Product2([a.shape[0], b.shape[1]]);
  }

  function TransposeRows(a: Tensor): (rows: seq<seq<real>>)
    requires IsMatrix(a)
    ensures |rows| == a.shape[1] && Uniform(rows, a.shape[0])
    ensures |Flatten(rows)| == a.shape[1] * a.shape[0]
  {
    var rows := seq(a.shape[1], j requires 0 <= j < a.shape[1] => Col(a, j));
    FlattenLength(rows, a.shape[0]);
    rows
  }

  /** The definition of transpose: an error unless rank 2; otherwise row j of the
      result is column j of the input. */
  function TransposeSpec(a: Tensor): (r: Result<Tensor>)
    requires a.Valid()
    ensures r.Err? <==> |a.shape| != 2
    ensures r.Err? ==> r.error == ShapeMismatch
    ensures r.Ok? ==> IsMatrix(r.value) && r.value.shape == [a.shape[1], a.shape[0]]
  {
    if |a.shape| != 2 then Err(ShapeMismatch)
    else
      Product2([a.shape[1], a.shape[0]]);
      Ok(Tensor([a.shape[1], a.shape[0]], Flatten(TransposeRows(a))))
  }

  /** Entry (j, i) of the transpose is entry (i, j) of the input. */
  lemma TransposeAt(a: Tensor, i: nat, j: nat)
    requires IsMatrix(a) && i < a.shape[0] && j < a.shape[1]
    ensures TransposeSpec(a).Ok? && IsMatrix(TransposeSpec(a).value)
    ensures At2(TransposeSpec(a).value, j, i) == At2(a, i, j)
  {
    FlattenAt(TransposeRows(a), a.shape[0], j, i);
    Product2([a.shape[1], a.shape[0]]);
  }

  /** Transposing twice gives the original matrix back. */
  lemma TransposeInvolutive(a: Tensor)
    requires IsMatrix(a)
    ensures TransposeSpec(a).Ok? && TransposeSpec(TransposeSpec(a).value).Ok?
    ensures TransposeSpec(TransposeSpec(a).value).value == a
  {
    var t := TransposeSpec(a).value;
    var tt := TransposeSpec(t).value;
    forall i, j | 0 <= i < a.shape[0] && 0 <= j < a.shape[1] ensures At2(tt, i, j) == At2(a, i, j) {
      TransposeAt(a, i, j);
      TransposeAt(t, j, i);
    }
    MatrixExt(tt, a);
  }

  /** The row-major position of (i, j) in a layout with rows of length n. */
  function Cell(i: nat, j: nat, n: nat): nat
  {
    i * n + j
  }

  /** The coordinates (i', j') of an m-by-n source visited before (i, j) in row-major
      order have been copied to position j' * m + i' of the n-by-m result. */
  ghost predicate TransposedBefore(r: seq<real>, src: seq<real>, m: nat, n: nat, i: nat, j: nat)
  {
    |r| == n * m && |src| == m * n &&
    forall i', j' :: 0 <= i' < m && 0 <= j' < n && (i' < i || (i' == i && j' < j)) ==>
      Cell(j', i', m) < |r| && Cell(i', j', n) < |src| && r[Cell(j', i', m)] == src[Cell(i', j', n)]
  }

  /** Writing coordinate (i, j) leaves every earlier coordinate (i', j') copied,
      and copies (i, j) itself. */
  lemma TransposeStepAt(r: seq<real>, src: seq<real>, m: nat, n: nat, i: nat, j: nat, i': nat, j': nat)
    requires i < m && j < n && i' < m && j' < n && (i' < i || (i' == i && j' <= j))
    requires TransposedBefore(r, src, m, n, i, j)
    ensures Cell(j, i, m) < |r| && Cell(j', i', m) < |r| && Cell(i', j', n) < |src| && Cell(i, j, n) < |src|
    ensures r[Cell(j, i, m) := src[Cell(i, j, n)]][Cell(j', i', m)] == src[Cell(i', j', n)]
  {
    RowMajorBound(j, i, n, m);
    RowMajorBound(i, j, m, n);
    RowMajorBound(j', i', n, m);
    RowMajorBound(i', j', m, n);
    if i' != i || j' != j {
      if j' * m + i' == j * m + i {
        RowMajorInjective(j', i', j, i, m);
      }
    }
  }

  /** Writing coordinate (i, j) extends the copied region by one, and disturbs no
      earlier write. */
  lemma TransposeStep(r: seq<real>, src: seq<real>, m: nat, n: nat, i: nat, j: nat)
    requires i < m && j < n
    requires TransposedBefore(r, src, m, n, i, j)
    ensures Cell(j, i, m) < |r| && Cell(i, j, n) < |src|
    ensures TransposedBefore(r[Cell(j, i, m) := src[Cell(i, j, n)]], src, m, n, i, j + 1)
  {
    RowMajorBound(j, i, n, m);
    RowMajorBound(i, j, m, n);
    var r' := r[Cell(j, i, m) := src[Cell(i, j, n)]];
    forall i', j' | 0 <= i' < m && 0 <= j' < n && (i' < i || (i' == i && j' < j + 1))
      ensures Cell(j', i', m) < |r'| && Cell(i', j', n) < |src| && r'[Cell(j', i', m)] == src[Cell(i', j', n)]
    {
      TransposeStepAt(r, src, m, n, i, j, i', j');
    }
  }

  /** Finishing row i of the source is starting row i + 1. */
  lemma TransposeNextRow(r: seq<real>, src: seq<real>, m: nat, n: nat, i: nat)
    requires i < m && TransposedBefore(r, src, m, n, i, n)
    ensures TransposedBefore(r, src, m, n, i + 1, 0)
  {
  }

  /** Once every coordinate is copied, the result is the transpose. */
  lemma TransposeDone(a: Tensor, r: seq<real>)
    requires IsMatrix(a) && TransposedBefore(r, a.data, a.shape[0], a.shape[1], a.shape[0], 0)
    ensures IsMatrix(Tensor([a.shape[1], a.shape[0]], r))
    ensures TransposeSpec(a) == Ok(Tensor([a.shape[1], a.shape[0]], r))
  {
    var m, n := a.shape[0], a.shape[1];
    var result := Tensor([n, m], r);
    Product2([n, m]);
    Product2(a.shape);
    var spec := TransposeSpec(a).value;
    forall j, i | 0 <= j < n && 0 <= i < m ensures At2(result, j, i) == At2(spec, j, i) {
      TransposeAt(a, i, j);
      assert At2(result, j, i) == r[Cell(j, i, m)];
      assert At2(a, i, j) == a.data[Cell(i, j, n)];
    }
    MatrixExt(result, spec);
  }

  /** transpose: writes result({j, i}) = this({i, j}) for every coordinate of a matrix. */
  method Transpose(a: Tensor) returns (r: Result<Tensor>)
    requires a.Valid()
    ensures r == TransposeSpec(a)
  {
    if |a.shape| != 2 {
      return Err(ShapeMismatch);
    }
    var m, n := a.shape[0], a.shape[1];
    var result := New([n, m]);
    Product2([n, m]);
    Product2(a.shape);
    for i := 0 to m
      invariant result.shape == [n, m]
      invariant TransposedBefore(result.data, a.data, m, n, i, 0)
    {
      for j := 0 to n
        invariant result.shape == [n, m]
        invariant TransposedBefore(result.data, a.data, m, n, i, j)
      {
        TransposeStep(result.data, a.data, m, n, i, j);
        RowMajorBound(i, j, m, n);
        assert At2(a, i, j) == a.data[Cell(i, j, n)];
        result := result.(data := result.data[Cell(j, i, m) := At2(a, i, j)]);
      }
      TransposeNextRow(result.data, a.data, m, n, i);
    }
    TransposeDone(a, result.data);
    r := Ok(result);
  }

  // ---------------------------------------------------------------------
  // Rank-3 and rank-4 access, used by the convolution

  predicate IsRank3(t: Tensor)
  {
    t.Valid() && |t.shape| == 3
  }

  lemma Rank3Bound(shape: seq<nat>, c: nat, h: nat, w: nat)
    requires |shape| == 3 && c < shape[0] && h < shape[1] && w < shape[2]
    ensures (c * shape[1] + h) * shape[2] + w < Product(shape)
  {
    RowMajorBound(c, h, shape[0], shape[1]);
    RowMajorBound(c * shape[1] + h, w, shape[0] * shape[1], shape[2]);
    Product3(shape);
  }

  /** t({c, h, w}) on a rank-3 tensor. */
  function At3(t: Tensor, c: nat, h: nat, w: nat): real
    requires IsRank3(t) && c < t.shape[0] && h < t.shape[1] && w < t.shape[2]
  {
    Rank3Bound(t.shape, c, h, w);
    t.data[Cell3(c, h, w, t.shape[1], t.shape[2])]
  }

  lemma At3IsAccessor(t: Tensor, c: nat, h: nat, w: nat)
    requires IsRank3(t) && c < t.shape[0] && h < t.shape[1] && w < t.shape[2]
    ensures Offset(t.shape, [c, h, w]) < |t.data|
    ensures At(t, [c, h, w]) == At3(t, c, h, w)
  {
    Offset3(t.shape, c, h, w);
    Rank3Bound(t.shape, c, h, w);
  }

  predicate IsRank4(t: Tensor)
  {
    t.Valid() && |t.shape| == 4
  }

  lemma Rank4Bound(shape: seq<nat>, a: nat, b: nat, c: nat, d: nat)
    requires |shape| == 4 && a < shape[0] && b < shape[1] && c < shape[2] && d < shape[3]
    ensures ((a * shape[1] + b) * shape[2] + c) * shape[3] + d < Product(shape)
  {
    RowMajorBound(a, b, shape[0], shape[1]);
    RowMajorBound(a * shape[1] + b, c, shape[0] * shape[1], shape[2]);
    RowMajorBound((a * shape[1] + b) * shape[2] + c, d, shape[0] * shape[1] * shape[2], shape[3]);
    Product4(shape);
  }

  /** t({a, b, c, d}) on a rank-4 tensor. */
  function At4(t: Tensor, a: nat, b: nat, c: nat, d: nat): real
    requires IsRank4(t) && a < t.shape[0] && b < t.shape[1] && c < t.shape[2] && d < t.shape[3]
  {
    Rank4Bound(t.shape, a, b, c, d);
    t.data[Cell4(a, b, c, d, t.shape[1], t.shape[2], t.shape[3])]
  }

  lemma At4IsAccessor(t: Tensor, a: nat, b: nat, c: nat, d: nat)
    requires IsRank4(t) && a < t.shape[0] && b < t.shape[1] && c < t.shape[2] && d < t.shape[3]
    ensures Offset(t.shape, [a, b, c, d]) < |t.data|
    ensures At(t, [a, b, c, d]) == At4(t, a, b, c, d)
  {
    Offset4(t.shape, a, b, c, d);
    Rank4Bound(t.shape, a, b, c, d);
  }

  /** t({c, h, w}) on a rank-3 tensor. */
  method Get3(t: Tensor, c: nat, h: nat, w: nat) returns (v: real)
    requires IsRank3(t) && c < t.shape[0] && h < t.shape[1] && w < t.shape[2]
    ensures v == At3(t, c, h, w)
  {
    At3IsAccessor(t, c, h, w);
    v := Get(t, [c, h, w]);
  }

  /** t({c, h, w}) = v on a copy of a rank-3 tensor. */
  method Set3(t: Tensor, c: nat, h: nat, w: nat, v: real) returns (r: Tensor)
    requires IsRank3(t) && c < t.shape[0] && h < t.shape[1] && w < t.shape[2]
    ensures Cell3(c, h, w, t.shape[1], t.shape[2]) < |t.data|
    ensures r == t.(data := t.data[Cell3(c, h, w, t.shape[1], t.shape[2]) := v])
  {
    At3IsAccessor(t, c, h, w);
    Offset3(t.shape, c, h, w);
    r := Set(t, [c, h, w], v);
  }

  /** t({a, b, c, d}) on a rank-4 tensor. */
  method Get4(t: Tensor, a: nat, b: nat, c: nat, d: nat) returns (v: real)
    requires IsRank4(t) && a < t.shape[0] && b < t.shape[1] && c < t.shape[2] && d < t.shape[3]
    ensures v == At4(t, a, b, c, d)
  {
    At4IsAccessor(t, a, b, c, d);
    v := Get(t, [a, b, c, d]);
  }

  /** t({a, b, c, d}) = v on a copy of a rank-4 tensor. */
  method Set4(t: Tensor, a: nat, b: nat, c: nat, d: nat, v: real) returns (r: Tensor)
    requires IsRank4(t) && a < t.shape[0] && b < t.shape[1] && c < t.shape[2] && d < t.shape[3]
    ensures Cell4(a, b, c, d, t.shape[1], t.shape[2], t.shape[3]) < |t.data|
    ensures r == t.(data := t.data[Cell4(a, b, c, d, t.shape[1], t.shape[2], t.shape[3]) := v])
  {
    At4IsAccessor(t, a, b, c, d);
    Offset4(t.shape, a, b, c, d);
    r := Set(t, [a, b, c, d], v);
  }

  /** The row-major position of (c, h, w) in planes of H rows of W elements. */
  function Cell3(c: nat, h: nat, w: nat, H: nat, W: nat): nat
  {
    (c * H + h) * W + w
  }
  /** The row-major offset of (a, b, c, d) in an A x B x C x D block. */
  function Cell4(a: nat, b: nat, c: nat, d: nat, B: nat, C: nat, D: nat): nat
  {
    ((a * B + b) * C + c) * D + d
  }
  /** The end of a row of an A x B x C x D block is the start of the next row. */
  lemma Cell4Row(a: nat, b: nat, c: nat, B: nat, C: nat, D: nat)
    ensures Cell4(a, b, c, D, B, C, D) == Cell4(a, b, c + 1, 0, B, C, D)
  {
  }

  /** The end of a plane is the start of the next plane. */
  lemma Cell4Plane(a: nat, b: nat, B: nat, C: nat, D: nat)
    ensures Cell4(a, b, C, 0, B, C, D) == Cell4(a, b + 1, 0, 0, B, C, D)
  {
  }

  /** The end of a block is the start of the next block. */
  lemma Cell4Block(a: nat, B: nat, C: nat, D: nat)
    ensures Cell4(a, B, 0, 0, B, C, D) == Cell4(a + 1, 0, 0, 0, B, C, D)
  {
  }

  /** After the last block every position has been passed. */
  lemma Cell4All(A: nat, B: nat, C: nat, D: nat)
    ensures Cell4(A, 0, 0, 0, B, C, D) == A * B * C * D
  {
  }



  /** Distinct coordinates of a rank-3 layout have distinct offsets. */
  lemma Rank3Injective(c: nat, h: nat, w: nat, c': nat, h': nat, w': nat, H: nat, W: nat)
    requires h < H && h' < H && w < W && w' < W
    requires (c * H + h) * W + w == (c' * H + h') * W + w'
    ensures c == c' && h == h' && w == w'
  {
    RowMajorInjective(c * H + h, w, c' * H + h', w', W);
    RowMajorInjective(c, h, c', h', H);
  }

  /** An offset below m * n splits into a row below m and a column below n. */
  lemma Decompose(q: nat, m: nat, n: nat)
    requires q < m * n
    ensures n > 0 && q / n < m && q % n < n && q == (q / n) * n + q % n
  {
    if q / n >= m {
      MulMonotone(m, q / n, n);
    }
  }

  /** Two rank-3 tensors of one shape that agree at every coordinate are equal. */
  lemma Rank3Ext(a: Tensor, b: Tensor)
    requires IsRank3(a) && IsRank3(b) && a.shape == b.shape
    requires forall c, h, w :: 0 <= c < a.shape[0] && 0 <= h < a.shape[1] && 0 <= w < a.shape[2] ==>
      At3(a, c, h, w) == At3(b, c, h, w)
    ensures a == b
  {
    var C, H, W := a.shape[0], a.shape[1], a.shape[2];
    Product3(a.shape);
    forall q | 0 <= q < |a.data| ensures a.data[q] == b.data[q] {
      Decompose(q, C * H, W);
      var r := q / W;
      Decompose(r, C, H);
      assert At3(a, r / H, r % H, q % W) == At3(b, r / H, r % H, q % W);
    }
  }

  /** Every plane has H rows, every row W elements. */
  ghost predicate Cubic(cube: seq<seq<seq<real>>>, H: nat, W: nat)
  {
    forall c :: 0 <= c < |cube| ==> |cube[c]| == H && Uniform(cube[c], W)
  }

  /** Planes of rows laid out one after another: row-major rank-3 data. */
  function Stack3(cube: seq<seq<seq<real>>>): seq<real>
  {
    Flatten(seq(|cube|, c requires 0 <= c < |cube| => Flatten(cube[c])))
  }

  /** A cube whose every element is x stacks to data whose every element is x. */
  lemma Stack3All(cube: seq<seq<seq<real>>>, x: real)
    requires forall c, h, w :: 0 <= c < |cube| && 0 <= h < |cube[c]| && 0 <= w < |cube[c][h]| ==> cube[c][h][w] == x
    ensures forall q :: 0 <= q < |Stack3(cube)| ==> Stack3(cube)[q] == x
  {
    var planes := seq(|cube|, c requires 0 <= c < |cube| => Flatten(cube[c]));
    forall c | 0 <= c < |cube| ensures forall k :: 0 <= k < |planes[c]| ==> planes[c][k] == x {
      FlattenAll(cube[c], x);
    }
    FlattenAll(planes, x);
  }

  lemma Stack3Length(cube: seq<seq<seq<real>>>, H: nat, W: nat)
    requires Cubic(cube, H, W)
    ensures |Stack3(cube)| == |cube| * H * W
  {
    var planes := seq(|cube|, c requires 0 <= c < |cube| => Flatten(cube[c]));
    forall c | 0 <= c < |cube| ensures |planes[c]| == H * W {
      FlattenLength(cube[c], W);
    }
    FlattenLength(planes, H * W);
    assert |cube| * (H * W) == |cube| * H * W;
  }

  lemma Regroup3(c: nat, h: nat, w: nat, H: nat, W: nat)
    ensures c * (H * W) + (h * W + w) == (c * H + h) * W + w
  {
  }

  /** Element (c, h, w) of the planes sits at offset (c * H + h) * W + w. */
  lemma Stack3At(cube: seq<seq<seq<real>>>, H: nat, W: nat, c: nat, h: nat, w: nat)
    requires Cubic(cube, H, W) && c < |cube| && h < H && w < W
    ensures |Stack3(cube)| == |cube| * H * W
    ensures Cell3(c, h, w, H, W) < |Stack3(cube)|
    ensures Stack3(cube)[Cell3(c, h, w, H, W)] == cube[c][h][w]
  {
    Stack3Length(cube, H, W);
    var planes := seq(|cube|, c requires 0 <= c < |cube| => Flatten(cube[c]));
    forall i | 0 <= i < |cube| ensures |planes[i]| == H * W {
      FlattenLength(cube[i], W);
    }
    RowMajorBound(h, w, H, W);
    FlattenAt(cube[c], W, h, w);
    FlattenAt(planes, H * W, c, h * W + w);
    Regroup3(c, h, w, H, W);
  }

  /** The rank-3 tensor whose element (c, h, w) is cube[c][h][w]. */
  function FromCube(cube: seq<seq<seq<real>>>, H: nat, W: nat): (t: Tensor)
    requires Cubic(cube, H, W)
    ensures IsRank3(t) && t.shape == [|cube|, H, W]
  {
    Stack3Length(cube, H, W);
    Product3([|cube|, H, W]);
    Tensor([|cube|, H, W], Stack3(cube))
  }

  lemma FromCubeAt(cube: seq<seq<seq<real>>>, H: nat, W: nat, c: nat, h: nat, w: nat)
    requires Cubic(cube, H, W) && c < |cube| && h < H && w < W
    ensures At3(FromCube(cube, H, W), c, h, w) == cube[c][h][w]
  {
    Stack3At(cube, H, W, c, h, w);
  }

  /** The elements of a rank-3 tensor as planes of rows. */
  function CubeOf(t: Tensor): (cube: seq<seq<seq<real>>>)
    requires IsRank3(t)
    ensures |cube| == t.shape[0] && Cubic(cube, t.shape[1], t.shape[2])
    ensures forall c, h, w :: 0 <= c < t.shape[0] && 0 <= h < t.shape[1] && 0 <= w < t.shape[2] ==>
      cube[c][h][w] == At3(t, c, h, w)
  {
    var C, H, W := t.shape[0], t.shape[1], t.shape[2];
    seq(C, c requires 0 <= c < C =>
      seq(H, h requires 0 <= h < H =>
        seq(W, w requires 0 <= w < W => At3(t, c, h, w))))
  }

  /** Stacking the planes of a rank-3 tensor gives back its data. */
  lemma CubeOfStacks(t: Tensor)
    requires IsRank3(t)
    ensures Stack3(CubeOf(t)) == t.data
  {
    var cube := CubeOf(t);
    var u := FromCube(cube, t.shape[1], t.shape[2]);
    forall c, h, w | 0 <= c < t.shape[0] && 0 <= h < t.shape[1] && 0 <= w < t.shape[2]
      ensures At3(u, c, h, w) == At3(t, c, h, w)
    {
      FromCubeAt(cube, t.shape[1], t.shape[2], c, h, w);
    }
    Rank3Ext(u, t);
  }

  /** Every block holds B planes of C rows of D elements. */
  ghost predicate Hypercubic(hyper: seq<seq<seq<seq<real>>>>, B: nat, C: nat, D: nat)
  {
    forall a :: 0 <= a < |hyper| ==> |hyper[a]| == B && Cubic(hyper[a], C, D)
  }

  /** The blocks' planes, in order, each with C rows of D elements. */
  lemma {:induction false} CubicFlatten(hyper: seq<seq<seq<seq<real>>>>, B: nat, C: nat, D: nat)
    requires Hypercubic(hyper, B, C, D)
    ensures Cubic(Flatten(hyper), C, D)
    decreases |hyper|
  {
    if |hyper| > 0 {
      CubicFlatten(hyper[..|hyper| - 1], B, C, D);
    }
  }

  /** Blocks of planes laid out one after another: row-major rank-4 data. */
  function Stack4(hyper: seq<seq<seq<seq<real>>>>): seq<real>
  {
    Stack3(Flatten(hyper))
  }

  lemma Stack4Length(hyper: seq<seq<seq<seq<real>>>>, B: nat, C: nat, D: nat)
    requires Hypercubic(hyper, B, C, D)
    ensures |Stack4(hyper)| == |hyper| * B * C * D
  {
    CubicFlatten(hyper, B, C, D);
    FlattenLength(hyper, B);
    Stack3Length(Flatten(hyper), C, D);
  }

  /** Element (a, b, c, d) of the blocks sits at offset ((a * B + b) * C + c) * D + d. */
  lemma Stack4At(hyper: seq<seq<seq<seq<real>>>>, B: nat, C: nat, D: nat, a: nat, b: nat, c: nat, d: nat, off: nat)
    requires Hypercubic(hyper, B, C, D) && a < |hyper| && b < B && c < C && d < D
    requires off == ((a * B + b) * C + c) * D + d
    ensures |Stack4(hyper)| == |hyper| * B * C * D
    ensures off < |Stack4(hyper)| && Stack4(hyper)[off] == hyper[a][b][c][d]
  {
    Stack4Length(hyper, B, C, D);
    CubicFlatten(hyper, B, C, D);
    FlattenAt(hyper, B, a, b);
    Stack3At(Flatten(hyper), C, D, a * B + b, c, d);
  }

  /** The rank-4 tensor whose element (a, b, c, d) is hyper[a][b][c][d]. */
  function FromHyper(hyper: seq<seq<seq<seq<real>>>>, B: nat, C: nat, D: nat): (t: Tensor)
    requires Hypercubic(hyper, B, C, D)
    ensures IsRank4(t) && t.shape == [|hyper|, B, C, D]
  {
    Stack4Length(hyper, B, C, D);
    Product4([|hyper|, B, C, D]);
    Tensor([|hyper|, B, C, D], Stack4(hyper))
  }

  lemma FromHyperAt(hyper: seq<seq<seq<seq<real>>>>, B: nat, C: nat, D: nat, a: nat, b: nat, c: nat, d: nat)
    requires Hypercubic(hyper, B, C, D) && a < |hyper| && b < B && c < C && d < D
    ensures At4(FromHyper(hyper, B, C, D), a, b, c, d) == hyper[a][b][c][d]
  {
    Stack4At(hyper, B, C, D, a, b, c, d, Cell4(a, b, c, d, B, C, D));
  }

  // ---------------------------------------------------------------------
  // Shared elementwise helpers

  /** A rank-1 tensor can be read with one coordinate at positions below n. */
  predicate VectorOfAtLeast(t: Tensor, n: nat)
  {
    n == 0 || (|t.shape| == 1 && |t.data| >= n)
  }

  /** param - rate * grad, element by element over param's elements, with param's shape. */
  function ScaledDifference(param: Tensor, grad: Tensor, rate: real): (r: Tensor)
    requires |grad.data| >= |param.data|
    ensures r.shape == param.shape && |r.data| == |param.data|
  {
    Tensor(param.shape, seq(|param.data|, i requires 0 <= i < |param.data| => param.data[i] - rate * grad.data[i]))
  }

  /** A step with rate 0 leaves the parameter unchanged. */
  lemma ZeroRateKeeps(param: Tensor, grad: Tensor)
    requires |grad.data| >= |param.data|
    ensures ScaledDifference(param, grad, 0.0) == param
  {
    assert ScaledDifference(param, grad, 0.0).data == param.data;
  }

  /** Two steps with the same gradient are one step with the rates added. */
  lemma ScaledDifferenceTwice(param: Tensor, grad: Tensor, r1: real, r2: real)
    requires |grad.data| >= |param.data|
    ensures ScaledDifference(ScaledDifference(param, grad, r1), grad, r2) == ScaledDifference(param, grad, r1 + r2)
  {
    var a := ScaledDifference(ScaledDifference(param, grad, r1), grad, r2);
    var b := ScaledDifference(param, grad, r1 + r2);
    forall i | 0 <= i < |param.data| ensures a.data[i] == b.data[i] {
      var p, g := param.data[i], grad.data[i];
      assert (p - r1 * g) - r2 * g == p - (r1 + r2) * g;
    }
  }

  /** The in-place update param({i}) -= rate * grad({i}) for every i below
      param.size(), on a copy of param. */
  method SubtractScaled(param: Tensor, grad: Tensor, rate: real) returns (r: Tensor)
    requires |grad.data| >= |param.data|
    ensures r == ScaledDifference(param, grad, rate)
  {
    r := param;
    for i := 0 to |param.data|
      invariant r.shape == param.shape && |r.data| == |param.data|
      invariant forall k :: 0 <= k < i ==> r.data[k] == param.data[k] - rate * grad.data[k]
      invariant forall k :: i <= k < |param.data| ==> r.data[k] == param.data[k]
    {
      r := r.(data := r.data[i := r.data[i] - rate * grad.data[i]]);
    }
    ghost var spec := ScaledDifference(param, grad, rate);
    assert forall k :: 0 <= k < |param.data| ==> spec.data[k] == param.data[k] - rate * grad.data[k];
    assert r.data == spec.data;
  }
}

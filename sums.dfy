/**
 * Finite sums, inner products, flattening of rows and scatter-add, the
 * vocabulary in which the layers' nested accumulator loops are specified.
 * Every sum is accumulated from the front, one element at a time, in the
 * order the source's loops add their terms.
 */
module Sums {

  /** s[0] + s[1] + ... + s[|s|-1]. */
  function Sum(s: seq<real>): real
    decreases |s|
  {
    if |s| == 0 then 0.0 else Sum(s[..|s| - 1]) + s[|s| - 1]
  }

  /** u[0]*v[0] + ... + u[n-1]*v[n-1]. */
  function Inner(u: seq<real>, v: seq<real>): real
    requires |u| == |v|
    decreases |u|
  {
    if |u| == 0 then 0.0 else Inner(u[..|u| - 1], v[..|v| - 1]) + u[|u| - 1] * v[|v| - 1]
  }

  /** One more step of an accumulator loop over s. */
  lemma SumStep(s: seq<real>, k: nat)
    requires k < |s|
    ensures Sum(s[..k + 1]) == Sum(s[..k]) + s[k]
  {
    assert s[..k + 1][..k] == s[..k];
  }

  /** One more step of an inner-product accumulator loop. */
  lemma InnerStep(u: seq<real>, v: seq<real>, k: nat)
    requires |u| == |v| && k < |u|
    ensures Inner(u[..k + 1], v[..k + 1]) == Inner(u[..k], v[..k]) + u[k] * v[k]
  {
    assert u[..k + 1][..k] == u[..k];
    assert v[..k + 1][..k] == v[..k];
  }

  /** The step of a loop that accumulates an inner product term by term. */
  lemma InnerExtend(u: seq<real>, v: seq<real>, k: nat, sum: real, a: real, w: real)
    requires |u| == |v| && k < |u| && u[k] == a && v[k] == w
    requires sum == Inner(u[..k], v[..k])
    ensures sum + a * w == Inner(u[..k + 1], v[..k + 1])
  {
    InnerStep(u, v, k);
    assert a * w == u[k] * v[k];
  }

  /** An inner product with a zero operand is zero. */
  lemma {:induction false} InnerZero(u: seq<real>, v: seq<real>)
    requires |u| == |v| && forall i :: 0 <= i < |v| ==> v[i] == 0.0
    ensures Inner(u, v) == 0.0
    decreases |u|
  {
    if |u| > 0 {
      InnerZero(u[..|u| - 1], v[..|v| - 1]);
      assert u[|u| - 1] * v[|v| - 1] == 0.0;
    }
  }

  /** The inner product does not depend on the order of its operands. */
  lemma {:induction false} InnerSymmetric(u: seq<real>, v: seq<real>)
    requires |u| == |v|
    ensures Inner(u, v) == Inner(v, u)
    decreases |u|
  {
    if |u| > 0 {
      InnerSymmetric(u[..|u| - 1], v[..|v| - 1]);
    }
  }

  /** Sums of sequences that agree elementwise agree. */
  lemma {:induction false} SumExt(s: seq<real>, t: seq<real>)
    requires |s| == |t|
    requires forall i :: 0 <= i < |s| ==> s[i] == t[i]
    ensures Sum(s) == Sum(t)
  {
    if |s| > 0 {
      SumExt(s[..|s| - 1], t[..|t| - 1]);
    }
  }

  /** The sum of a concatenation is the sum of the sums. */
  lemma {:induction false} SumConcat(s: seq<real>, t: seq<real>)
    ensures Sum(s + t) == Sum(s) + Sum(t)
    decreases |t|
  {
    if |t| == 0 {
      assert s + t == s;
    } else {
      assert (s + t)[..|s + t| - 1] == s + t[..|t| - 1];
      SumConcat(s, t[..|t| - 1]);
    }
  }

  /** A sum of non-negative terms is non-negative. */
  lemma {:induction false} SumNonNegative(s: seq<real>)
    requires forall i :: 0 <= i < |s| ==> s[i] >= 0.0
    ensures Sum(s) >= 0.0
  {
    if |s| > 0 {
      SumNonNegative(s[..|s| - 1]);
    }
  }

  /** A sum of non-negative terms with one positive term is positive. */
  lemma {:induction false} SumPositive(s: seq<real>, k: nat)
    requires forall i :: 0 <= i < |s| ==> s[i] >= 0.0
    requires k < |s| && s[k] > 0.0
    ensures Sum(s) > 0.0
  {
    if k == |s| - 1 {
      SumNonNegative(s[..|s| - 1]);
    } else {
      SumPositive(s[..|s| - 1], k);
    }
  }

  /** A sum of non-negative terms is at least each of its terms. */
  lemma {:induction false} SumAtLeastTerm(s: seq<real>, k: nat)
    requires forall i :: 0 <= i < |s| ==> s[i] >= 0.0
    requires k < |s|
    ensures s[k] <= Sum(s)
  {
    if k == |s| - 1 {
      SumNonNegative(s[..|s| - 1]);
    } else {
      SumAtLeastTerm(s[..|s| - 1], k);
    }
  }

  /** Flattening a sequence of rows, row after row (row-major order). */
  function Flatten<T>(rows: seq<seq<T>>): seq<T>
    decreases |rows|
  {
    if |rows| == 0 then [] else Flatten(rows[..|rows| - 1]) + rows[|rows| - 1]
  }

  /** Every row has length n. */
  ghost predicate Uniform<T>(rows: seq<seq<T>>, n: nat)
  {
    forall i :: 0 <= i < |rows| ==> |rows[i]| == n
  }

  lemma {:induction false} FlattenLength<T>(rows: seq<seq<T>>, n: nat)
    requires Uniform(rows, n)
    ensures |Flatten(rows)| == |rows| * n
  {
    if |rows| > 0 {
      FlattenLength(rows[..|rows| - 1], n);
    }
  }

  /** Rows whose every element is x flatten to a sequence whose every element is x. */
  lemma {:induction false} FlattenAll<T>(rows: seq<seq<T>>, x: T)
    requires forall i, j :: 0 <= i < |rows| && 0 <= j < |rows[i]| ==> rows[i][j] == x
    ensures forall k :: 0 <= k < |Flatten(rows)| ==> Flatten(rows)[k] == x
    decreases |rows|
  {
    if |rows| > 0 {
      FlattenAll(rows[..|rows| - 1], x);
    }
  }

  /** The sum of each row. */
  function RowSums(rows: seq<seq<real>>): (r: seq<real>)
    ensures |r| == |rows| && forall i :: 0 <= i < |rows| ==> r[i] == Sum(rows[i])
  {
    seq(|rows|, i requires 0 <= i < |rows| => Sum(rows[i]))
  }

  /** Summing the flattened rows is summing the row sums. */
  lemma {:induction false} SumFlatten(rows: seq<seq<real>>)
    ensures Sum(Flatten(rows)) == Sum(RowSums(rows))
    decreases |rows|
  {
    if |rows| > 0 {
      var init := rows[..|rows| - 1];
      SumFlatten(init);
      SumConcat(Flatten(init), rows[|rows| - 1]);
      assert RowSums(rows)[..|rows| - 1] == RowSums(init);
    }
  }

  /** The inner product of two concatenations of matching parts is the sum of the
      inner products of the parts. */
  lemma {:induction false} InnerConcat(x: seq<real>, y: seq<real>, x': seq<real>, y': seq<real>)
    requires |x| == |x'| && |y| == |y'|
    ensures Inner(x + y, x' + y') == Inner(x, x') + Inner(y, y')
    decreases |y|
  {
    if |y| > 0 {
      var n := |y| - 1;
      assert (x + y)[..|x + y| - 1] == x + y[..n];
      assert (x' + y')[..|x' + y'| - 1] == x' + y'[..n];
      InnerConcat(x, y[..n], x', y'[..n]);
    } else {
      assert x + y == x && x' + y' == x';
    }
  }

  /** Two sequences of rows with equal numbers of rows and equal row lengths. */
  ghost predicate Matching(a: seq<seq<real>>, b: seq<seq<real>>)
  {
    |a| == |b| && forall i :: 0 <= i < |a| ==> |a[i]| == |b[i]|
  }

  /** The inner products of corresponding rows. */
  function RowInners(a: seq<seq<real>>, b: seq<seq<real>>): (r: seq<real>)
    requires Matching(a, b)
    ensures |r| == |a| && forall i :: 0 <= i < |a| ==> r[i] == Inner(a[i], b[i])
  {
    seq(|a|, i requires 0 <= i < |a| => Inner(a[i], b[i]))
  }

  /** The inner product of two flattened matching sequences of rows is the sum of the
      inner products of their rows. */
  lemma {:induction false} InnerFlatten(a: seq<seq<real>>, b: seq<seq<real>>)
    requires Matching(a, b)
    ensures |Flatten(a)| == |Flatten(b)|
    ensures Inner(Flatten(a), Flatten(b)) == Sum(RowInners(a, b))
    decreases |a|
  {
    if |a| > 0 {
      var n := |a| - 1;
      InnerFlatten(a[..n], b[..n]);
      InnerConcat(Flatten(a[..n]), a[n], Flatten(b[..n]), b[n]);
      assert RowInners(a, b)[..n] == RowInners(a[..n], b[..n]);
    }
  }

  /** Element j of row i sits at position i*n + j of the flattened rows. */
  lemma {:induction false} FlattenAt<T>(rows: seq<seq<T>>, n: nat, i: nat, j: nat)
    requires Uniform(rows, n)
    requires i < |rows| && j < n
    ensures |Flatten(rows)| == |rows| * n
    ensures i * n + j < |Flatten(rows)|
    ensures Flatten(rows)[i * n + j] == rows[i][j]
  {
    FlattenLength(rows, n);
    var init := rows[..|rows| - 1];
    FlattenLength(init, n);
    if i < |rows| - 1 {
      FlattenAt(init, n, i, j);
    } else {
      assert |Flatten(init)| == i * n;
    }
  }

  // ---------------------------------------------------------------------
  // Row-major index arithmetic

  lemma MulMonotone(a: nat, b: nat, c: nat)
    requires a <= b
    ensures a * c <= b * c
  {
  }

  /** Row i of an m-row layout ends inside it. */
  lemma RowInside(i: nat, m: nat, n: nat)
    requires i < m
    ensures (i + 1) * n <= m * n
  {
    MulMonotone(i + 1, m, n);
  }

  /** A coordinate (i, j) inside an m-by-n layout has an offset inside it. */
  lemma RowMajorBound(i: nat, j: nat, m: nat, n: nat)
    requires i < m && j < n
    ensures i * n + j < m * n
  {
    RowInside(i, m, n);
    assert (i + 1) * n == i * n + n;
  }

  /** Distinct coordinates of a layout with rows of length n have distinct offsets. */
  lemma RowMajorInjective(i: nat, j: nat, i': nat, j': nat, n: nat)
    requires j < n && j' < n
    requires i * n + j == i' * n + j'
    ensures i == i' && j == j'
  {
    if i < i' {
      MulMonotone(i + 1, i', n);
      assert false;
    } else if i' < i {
      MulMonotone(i' + 1, i, n);
      assert false;
    }
  }

  // ---------------------------------------------------------------------
  // Scatter-add: the transposed-convolution loop adds amounts into targets

  datatype Contribution = Contribution(target: nat, amount: real)

  /** acc with every contribution of cs added, in order, at its target; a
      contribution aimed outside acc is dropped. */
  function ScatterAdd(acc: seq<real>, cs: seq<Contribution>): (r: seq<real>)
    ensures |r| == |acc|
    decreases |cs|
  {
    if |cs| == 0 then acc else AddAt(ScatterAdd(acc, cs[..|cs| - 1]), cs[|cs| - 1])
  }

  /** One contribution added at its target, or dropped when the target is outside. */
  function AddAt(a: seq<real>, c: Contribution): (r: seq<real>)
    ensures |r| == |a|
  {
    if c.target < |a| then a[c.target := a[c.target] + c.amount] else a
  }

  /** A loop that adds cs[n] after cs[0 .. n-1] has scattered the first n + 1. */
  lemma ScatterAddLast(acc: seq<real>, cs: seq<Contribution>, n: nat)
    requires n < |cs|
    ensures ScatterAdd(acc, cs[..n + 1]) == AddAt(ScatterAdd(acc, cs[..n]), cs[n])
  {
    assert cs[..n + 1][..n] == cs[..n];
  }

  /** The total amount that cs sends to position q. */
  function Gathered(cs: seq<Contribution>, q: nat): real
    decreases |cs|
  {
    if |cs| == 0 then 0.0
    else Gathered(cs[..|cs| - 1], q) + (if cs[|cs| - 1].target == q then cs[|cs| - 1].amount else 0.0)
  }

  /** Scatter-add, read back position by position: each position receives exactly
      the amounts aimed at it. */
  lemma {:induction false} ScatterAddAt(acc: seq<real>, cs: seq<Contribution>, q: nat)
    requires q < |acc|
    ensures ScatterAdd(acc, cs)[q] == acc[q] + Gathered(cs, q)
    decreases |cs|
  {
    if |cs| > 0 {
      ScatterAddAt(acc, cs[..|cs| - 1], q);
    }
  }

  /** Scattering a concatenation is scattering one part after the other. */
  lemma {:induction false} ScatterAddConcat(acc: seq<real>, xs: seq<Contribution>, ys: seq<Contribution>)
    ensures ScatterAdd(acc, xs + ys) == ScatterAdd(ScatterAdd(acc, xs), ys)
    decreases |ys|
  {
    if |ys| > 0 {
      var ys' := ys[..|ys| - 1];
      assert (xs + ys)[..|xs + ys| - 1] == xs + ys';
      ScatterAddConcat(acc, xs, ys');
    } else {
      assert xs + ys == xs;
    }
  }

  /** A loop over rows that scatters row i after rows 0 .. i-1 has scattered the
      first i + 1 rows. */
  lemma ScatterAddNext(acc: seq<real>, rows: seq<seq<Contribution>>, i: nat)
    requires i < |rows|
    ensures ScatterAdd(ScatterAdd(acc, Flatten(rows[..i])), rows[i]) == ScatterAdd(acc, Flatten(rows[..i + 1]))
  {
    assert rows[..i + 1][..i] == rows[..i];
    ScatterAddConcat(acc, Flatten(rows[..i]), rows[i]);
  }

  /** Amounts sent to q by a concatenation add up. */
  lemma {:induction false} GatheredConcat(xs: seq<Contribution>, ys: seq<Contribution>, q: nat)
    ensures Gathered(xs + ys, q) == Gathered(xs, q) + Gathered(ys, q)
    decreases |ys|
  {
    if |ys| > 0 {
      var ys' := ys[..|ys| - 1];
      assert (xs + ys)[..|xs + ys| - 1] == xs + ys';
      GatheredConcat(xs, ys', q);
    } else {
      assert xs + ys == xs;
    }
  }
}

/**
 * The static helpers of NNUtils: the scalar activation functions used by
 * the layers, and the in-place rescaling of a vector of doubles (modelled
 * as an array of reals) to [0, 1] or to zero mean.
 */
module NNUtils {
  import opened Sums
  import opened Elementary
  import opened Reals

  // ---------------------------------------------------------------------
  // Scalar helpers

  /** relu(x): x when positive, else 0. */
  function Relu(x: real): (r: real)
    ensures r >= 0.0 && r >= x
    ensures r == x || r == 0.0
  {
    if x > 0.0 then x else 0.0
  }

  /** relu_derivative(x): 1 when x is positive, and 0 otherwise (also at 0). */
  function ReluDerivative(x: real): (d: real)
    ensures d == 1.0 || d == 0.0
    ensures d == 1.0 <==> x > 0.0
  {
    if x > 0.0 then 1.0 else 0.0
  }

  /** ReLU leaves its own output unchanged. */
  lemma ReluIdempotent(x: real)
    ensures Relu(Relu(x)) == Relu(x)
  {
  }

  /** relu(x) is x gated by relu_derivative(x). */
  lemma ReluIsGated(x: real)
    ensures Relu(x) == ReluDerivative(x) * x
  {
  }

  /** sigmoid(x) = 1 / (1 + exp(-x)), strictly between 0 and 1. */
  function Sigmoid(f: Functions, x: real): (y: real)
    requires Sound(f)
    ensures 0.0 < y < 1.0
  {
    assert f.exp(-x) > 0.0;
    1.0 / (1.0 + f.exp(-x))
  }

  lemma SigmoidAtZero(f: Functions)
    requires Sound(f)
    ensures Sigmoid(f, 0.0) == 0.5
  {
    assert -0.0 == 0.0;
  }

  // ---------------------------------------------------------------------
  // normalize: min-max scaling

  /** The smallest element. */
  function Min(s: seq<real>): real
    requires |s| > 0
    decreases |s|
  {
    if |s| == 1 then s[0]
    else
      var r := Min(s[..|s| - 1]);
      if s[|s| - 1] < r then s[|s| - 1] else r
  }

  /** The largest element. */
  function Max(s: seq<real>): real
    requires |s| > 0
    decreases |s|
  {
    if |s| == 1 then s[0]
    else
      var r := Max(s[..|s| - 1]);
      if s[|s| - 1] > r then s[|s| - 1] else r
  }

  /** Min is a lower bound attained by some element. */
  lemma {:induction false} MinIsLeast(s: seq<real>)
    requires |s| > 0
    ensures forall i :: 0 <= i < |s| ==> Min(s) <= s[i]
    ensures exists i :: 0 <= i < |s| && s[i] == Min(s)
    decreases |s|
  {
    if |s| == 1 {
      assert s[0] == Min(s);
    } else {
      var s' := s[..|s| - 1];
      MinIsLeast(s');
      var k :| 0 <= k < |s'| && s'[k] == Min(s');
      if s[|s| - 1] < Min(s') {
        assert s[|s| - 1] == Min(s);
      } else {
        assert s[k] == Min(s);
      }
      forall i | 0 <= i < |s| ensures Min(s) <= s[i] {
        if i < |s| - 1 {
          assert s'[i] == s[i];
        }
      }
    }
  }

  /** Max is an upper bound attained by some element. */
  lemma {:induction false} MaxIsGreatest(s: seq<real>)
    requires |s| > 0
    ensures forall i :: 0 <= i < |s| ==> s[i] <= Max(s)
    ensures exists i :: 0 <= i < |s| && s[i] == Max(s)
    decreases |s|
  {
    if |s| == 1 {
      assert s[0] == Max(s);
    } else {
      var s' := s[..|s| - 1];
      MaxIsGreatest(s');
      var k :| 0 <= k < |s'| && s'[k] == Max(s');
      if s[|s| - 1] > Max(s') {
        assert s[|s| - 1] == Max(s);
      } else {
        assert s[k] == Max(s);
      }
      forall i | 0 <= i < |s| ensures s[i] <= Max(s) {
        if i < |s| - 1 {
          assert s'[i] == s[i];
        }
      }
    }
  }

  /** std::min_element, dereferenced: a scan that keeps the smallest value seen. */
  method MinElement(a: array<real>) returns (m: real)
    requires a.Length > 0
    ensures m == Min(a[..])
  {
    m := a[0];
    for i := 1 to a.Length
      invariant m == Min(a[..i])
    {
      assert a[..i + 1][..i] == a[..i];
      if a[i] < m {
        m := a[i];
      }
    }
    assert a[..a.Length] == a[..];
  }

  /** std::max_element, dereferenced. */
  method MaxElement(a: array<real>) returns (m: real)
    requires a.Length > 0
    ensures m == Max(a[..])
  {
    m := a[0];
    for i := 1 to a.Length
      invariant m == Max(a[..i])
    {
      assert a[..i + 1][..i] == a[..i];
      if a[i] > m {
        m := a[i];
      }
    }
    assert a[..a.Length] == a[..];
  }

  /** Each element mapped to (x - min) / (max - min). */
  function Normalized(s: seq<real>): (r: seq<real>)
    requires |s| > 0 && Min(s) != Max(s)
    ensures |r| == |s|
  {
    seq(|s|, i requires 0 <= i < |s| => (s[i] - Min(s)) / (Max(s) - Min(s)))
  }

  /** One element of a min-max scaling, with lo <= x <= hi and lo < hi. */
  lemma RescaleUnit(x: real, lo: real, hi: real)
    requires lo <= x <= hi && lo < hi
    ensures 0.0 <= (x - lo) / (hi - lo) <= 1.0
    ensures x == lo ==> (x - lo) / (hi - lo) == 0.0
    ensures x == hi ==> (x - lo) / (hi - lo) == 1.0
  {
    var d := hi - lo;
    DivideMonotone(x - lo, d, d);
    DivideMonotone(0.0, x - lo, d);
    assert d / d == 1.0;
  }

  /** Min-max scaling lands in [0, 1], sends the minimum to 0 and the maximum to 1,
      and keeps the order of the elements. */
  lemma NormalizedRange(s: seq<real>)
    requires |s| > 0 && Min(s) != Max(s)
    ensures forall i :: 0 <= i < |s| ==> 0.0 <= Normalized(s)[i] <= 1.0
    ensures forall i :: 0 <= i < |s| && s[i] == Min(s) ==> Normalized(s)[i] == 0.0
    ensures forall i :: 0 <= i < |s| && s[i] == Max(s) ==> Normalized(s)[i] == 1.0
    ensures forall i, j :: 0 <= i < |s| && 0 <= j < |s| && s[i] <= s[j] ==> Normalized(s)[i] <= Normalized(s)[j]
  {
    NormalizedUnit(s);
    NormalizedMonotone(s);
  }

  /** The bounds and the two end points of min-max scaling. */
  lemma NormalizedUnit(s: seq<real>)
    requires |s| > 0 && Min(s) != Max(s)
    ensures forall i :: 0 <= i < |s| ==> 0.0 <= Normalized(s)[i] <= 1.0
    ensures forall i :: 0 <= i < |s| && s[i] == Min(s) ==> Normalized(s)[i] == 0.0
    ensures forall i :: 0 <= i < |s| && s[i] == Max(s) ==> Normalized(s)[i] == 1.0
  {
    var lo, hi := Min(s), Max(s);
    var r := Normalized(s);
    MinIsLeast(s);
    MaxIsGreatest(s);
    assert lo < hi by {
      assert lo <= s[0] <= hi;
    }
    forall i | 0 <= i < |s|
      ensures 0.0 <= r[i] <= 1.0
      ensures s[i] == lo ==> r[i] == 0.0
      ensures s[i] == hi ==> r[i] == 1.0
    {
      assert r[i] == (s[i] - lo) / (hi - lo);
      RescaleUnit(s[i], lo, hi);
    }
  }

  /** Min-max scaling keeps the order of the elements. */
  lemma NormalizedMonotone(s: seq<real>)
    requires |s| > 0 && Min(s) != Max(s)
    ensures forall i, j :: 0 <= i < |s| && 0 <= j < |s| && s[i] <= s[j] ==> Normalized(s)[i] <= Normalized(s)[j]
  {
    var lo, hi := Min(s), Max(s);
    var r := Normalized(s);
    MinIsLeast(s);
    MaxIsGreatest(s);
    assert lo < hi by {
      assert lo <= s[0] <= hi;
    }
    forall i, j | 0 <= i < |s| && 0 <= j < |s| && s[i] <= s[j] ensures r[i] <= r[j] {
      assert r[i] == (s[i] - lo) / (hi - lo) && r[j] == (s[j] - lo) / (hi - lo);
      DivideMonotone(s[i] - lo, s[j] - lo, hi - lo);
    }
  }

  /** normalize: finds the minimum and maximum, then rescales every element in place. */
  method Normalize(a: array<real>)
    requires a.Length > 0 && Min(a[..]) != Max(a[..])
    modifies a
    ensures a[..] == Normalized(old(a[..]))
  {
    var lo := MinElement(a);
    var hi := MaxElement(a);
    ghost var s := a[..];
    ghost var r := Normalized(s);
    for i := 0 to a.Length
      invariant forall k :: 0 <= k < i ==> a[k] == r[k]
      invariant forall k :: i <= k < a.Length ==> a[k] == s[k]
    {
      a[i] := (a[i] - lo) / (hi - lo);
    }
    assert a[..] == r;
  }

  // ---------------------------------------------------------------------
  // standardize: z-scores

  function Mean(s: seq<real>): real
    requires |s| > 0
  {
    Sum(s) / (|s| as real)
  }

  /** (x - c)^2 for every element x. */
  function SquaredDeviations(s: seq<real>, c: real): (d: seq<real>)
    ensures |d| == |s|
  {
    seq(|s|, i requires 0 <= i < |s| => (s[i] - c) * (s[i] - c))
  }

  /** The population standard deviation. */
  function StdDev(f: Functions, s: seq<real>): real
    requires |s| > 0
  {
    f.sqrt(Sum(SquaredDeviations(s, Mean(s))) / (|s| as real))
  }

  /** Some two elements differ. */
  predicate NonConstant(s: seq<real>)
  {
    exists i, j :: 0 <= i < |s| && 0 <= j < |s| && s[i] != s[j]
  }

  /** A non-constant vector deviates from any centre somewhere. */
  lemma DeviationsPositive(s: seq<real>, c: real)
    requires NonConstant(s)
    ensures Sum(SquaredDeviations(s, c)) > 0.0
  {
    var i, j :| 0 <= i < |s| && 0 <= j < |s| && s[i] != s[j];
    var d := SquaredDeviations(s, c);
    var k := if s[i] != c then i else j;
    Square(s[k] - c, d[k]);
    forall q | 0 <= q < |d| ensures d[q] >= 0.0 {
      Square(s[q] - c, d[q]);
    }
    SumPositive(d, k);
  }

  /** A non-constant vector has a positive standard deviation. */
  lemma StdDevPositive(f: Functions, s: seq<real>)
    requires Sound(f) && NonConstant(s)
    ensures |s| > 0 && StdDev(f, s) > 0.0
  {
    var v := Sum(SquaredDeviations(s, Mean(s)));
    DeviationsPositive(s, Mean(s));
    var n := |s| as real;
    assert v / n > 0.0;
    SqrtPositive(f, v / n);
  }

  /** Each element mapped to (x - c) / d. */
  function ShiftScaled(s: seq<real>, c: real, d: real): (r: seq<real>)
    requires d != 0.0
    ensures |r| == |s|
  {
    seq(|s|, i requires 0 <= i < |s| => (s[i] - c) / d)
  }

  /** Each element mapped to (x - mean) / stddev. */
  function Standardized(f: Functions, s: seq<real>): (r: seq<real>)
    requires Sound(f) && NonConstant(s)
    ensures |r| == |s|
  {
    StdDevPositive(f, s);
    ShiftScaled(s, Mean(s), StdDev(f, s))
  }

  /** Shifting by c and dividing by d shifts the sum by |s| * c and divides it by d. */
  lemma {:induction false} SumShiftScale(s: seq<real>, c: real, d: real)
    requires d != 0.0
    ensures Sum(ShiftScaled(s, c, d)) == (Sum(s) - (|s| as real) * c) / d
    decreases |s|
  {
    var t := ShiftScaled(s, c, d);
    if |s| > 0 {
      var s' := s[..|s| - 1];
      assert t[..|t| - 1] == ShiftScaled(s', c, d);
      SumShiftScale(s', c, d);
      assert Sum(t) == (Sum(s') - (|s'| as real) * c) / d + (s[|s| - 1] - c) / d;
    }
  }

  /** |s| times the mean is the sum. */
  lemma MeanTimesCount(s: seq<real>)
    requires |s| > 0
    ensures (|s| as real) * Mean(s) == Sum(s)
  {
  }

  /** Shifting by the mean and dividing by any d != 0 gives a vector summing to 0. */
  lemma CenteredSumZero(s: seq<real>, d: real)
    requires |s| > 0 && d != 0.0
    ensures Sum(ShiftScaled(s, Mean(s), d)) == 0.0
  {
    SumShiftScale(s, Mean(s), d);
    MeanTimesCount(s);
    assert Sum(s) - (|s| as real) * Mean(s) == 0.0;
  }

  /** Standardized data has mean zero. */
  lemma StandardizedMeanZero(f: Functions, s: seq<real>)
    requires Sound(f) && NonConstant(s)
    ensures Sum(Standardized(f, s)) == 0.0
  {
    StdDevPositive(f, s);
    CenteredSumZero(s, StdDev(f, s));
  }

  /** The first accumulation of standardize: mean += x over the vector. */
  method Total(a: array<real>) returns (total: real)
    ensures total == Sum(a[..])
  {
    total := 0.0;
    for i := 0 to a.Length
      invariant total == Sum(a[..i])
    {
      SumStep(a[..], i);
      assert a[..][..i] == a[..i] && a[..][..i + 1] == a[..i + 1];
      total := total + a[i];
    }
    assert a[..a.Length] == a[..];
  }

  /** The second accumulation of standardize: stddev += (x - mean)^2 over the vector. */
  method TotalSquaredDeviation(a: array<real>, mean: real) returns (total: real)
    ensures total == Sum(SquaredDeviations(a[..], mean))
  {
    ghost var d := SquaredDeviations(a[..], mean);
    total := 0.0;
    for i := 0 to a.Length
      invariant total == Sum(d[..i])
    {
      SumStep(d, i);
      total := total + (a[i] - mean) * (a[i] - mean);
    }
    assert d[..a.Length] == d;
  }

  /** The last loop of standardize: every element shifted by c and divided by d, in place. */
  method ShiftScale(a: array<real>, c: real, d: real)
    requires d != 0.0
    modifies a
    ensures a[..] == ShiftScaled(old(a[..]), c, d)
  {
    ghost var s := a[..];
    for i := 0 to a.Length
      invariant forall k :: 0 <= k < i ==> a[k] == (s[k] - c) / d
      invariant forall k :: i <= k < a.Length ==> a[k] == s[k]
    {
      a[i] := (a[i] - c) / d;
    }
    assert a[..] == ShiftScaled(s, c, d);
  }

  /** standardize: the mean, then the square root of the average squared deviation,
      then every element rescaled in place. */
  method Standardize(f: Functions, a: array<real>)
    requires Sound(f) && NonConstant(a[..])
    modifies a
    ensures a[..] == Standardized(f, old(a[..]))
  {
    ghost var s := a[..];
    var mean := Total(a);
    mean := mean / (a.Length as real);
    var stddev := TotalSquaredDeviation(a, mean);
    stddev := f.sqrt(stddev / (a.Length as real));
    assert mean == Mean(s) && stddev == StdDev(f, s);
    StdDevPositive(f, s);
    ShiftScale(a, mean, stddev);
  }
}

/** Pairwise Pearson correlation (calculateCorrelation) and the correlation
    matrix over a symbol order (calculateCorrelationMatrix). */
module Correlation {
  import opened Numerics
  import opened Aggregation

  function Min(a: nat, b: nat): nat
  {
    if a <= b then a else b
  }

  /** Sum of `x[i] * y[i]`, accumulated left to right. */
  function SumOfProducts(x: seq<real>, y: seq<real>): real
    requires |x| == |y|
  {
    if |x| == 0 then 0.0
    else SumOfProducts(x[..|x| - 1], y[..|y| - 1]) + x[|x| - 1] * y[|y| - 1]
  }

  /** `n * sumXY - sumX * sumY`: n squared times the co-moment of a pair of
      series whose sums and sum of products are given. */
  function CoMoment(n: real, sumXY: real, sumX: real, sumY: real): real
  {
    n * sumXY - sumX * sumY
  }

  /** `numerator / sqrt(varX * varY)`, or 0 when that root is 0. */
  function CorrelationRatio(numerator: real, varX: real, varY: real, sqrt: real -> real): real
  {
    var denominator := sqrt(varX * varY);
    if denominator == 0.0 then 0.0 else numerator / denominator
  }

  /** The value calculateCorrelation returns: the sum-based Pearson formula on
      the common prefix, and 0 when the root of the variance product is 0;
      `sqrt` stands for Math.sqrt. */
  function Pearson(x: seq<real>, y: seq<real>, sqrt: real -> real): real
  {
    var n := Min(|x|, |y|);
    var xs, ys := x[..n], y[..n];
    CorrelationRatio(
      CoMoment(n as real, SumOfProducts(xs, ys), Sum(xs), Sum(ys)),
      CoMoment(n as real, SumOfProducts(xs, xs), Sum(xs), Sum(xs)),
      CoMoment(n as real, SumOfProducts(ys, ys), Sum(ys), Sum(ys)),
      sqrt)
  }

  lemma SumOfProductsStep(x: seq<real>, y: seq<real>, i: nat)
    requires i < |x| && i < |y|
    ensures SumOfProducts(x[..i + 1], y[..i + 1]) == SumOfProducts(x[..i], y[..i]) + x[i] * y[i]
  {
    assert x[..i + 1][..i] == x[..i];
    assert y[..i + 1][..i] == y[..i];
  }

  /** calculateCorrelation: five running sums over the common prefix. */
  method CalculateCorrelation(x: seq<real>, y: seq<real>, sqrt: real -> real) returns (c: real)
    ensures c == Pearson(x, y, sqrt)
  {
    var sumX, sumY, sumXY, sumX2, sumY2 := 0.0, 0.0, 0.0, 0.0, 0.0;
    var n := Min(|x|, |y|);
    for i := 0 to n
      invariant sumX == Sum(x[..i]) && sumY == Sum(y[..i])
      invariant sumXY == SumOfProducts(x[..i], y[..i])
      invariant sumX2 == SumOfProducts(x[..i], x[..i])
      invariant sumY2 == SumOfProducts(y[..i], y[..i])
    {
      SumPrefixStep(x, i);
      SumPrefixStep(y, i);
      SumOfProductsStep(x, y, i);
      SumOfProductsStep(x, x, i);
      SumOfProductsStep(y, y, i);
      sumX := sumX + x[i];
      sumY := sumY + y[i];
      sumXY := sumXY + x[i] * y[i];
      sumX2 := sumX2 + x[i] * x[i];
      sumY2 := sumY2 + y[i] * y[i];
    }
    var numerator := CoMoment(n as real, sumXY, sumX, sumY);
    var denominator := sqrt(CoMoment(n as real, sumX2, sumX, sumX) * CoMoment(n as real, sumY2, sumY, sumY));
    c := if denominator == 0.0 then 0.0 else numerator / denominator;
  }

  lemma {:induction false} SumOfProductsSymmetric(x: seq<real>, y: seq<real>)
    requires |x| == |y|
    ensures SumOfProducts(x, y) == SumOfProducts(y, x)
  {
    if |x| > 0 {
      SumOfProductsSymmetric(x[..|x| - 1], y[..|y| - 1]);
    }
  }

  lemma CorrelationRatioSymmetric(numerator: real, varX: real, varY: real, sqrt: real -> real)
    ensures CorrelationRatio(numerator, varX, varY, sqrt) == CorrelationRatio(numerator, varY, varX, sqrt)
  {
    assert varX * varY == varY * varX;
  }

  /** The correlation of x with y is the correlation of y with x. */
  lemma PearsonSymmetric(x: seq<real>, y: seq<real>, sqrt: real -> real)
    ensures Pearson(x, y, sqrt) == Pearson(y, x, sqrt)
  {
    var n := Min(|x|, |y|);
    var xs, ys := x[..n], y[..n];
    SumOfProductsSymmetric(xs, ys);
    var m := n as real;
    assert CoMoment(m, SumOfProducts(xs, ys), Sum(xs), Sum(ys))
        == CoMoment(m, SumOfProducts(ys, xs), Sum(ys), Sum(xs));
    CorrelationRatioSymmetric(CoMoment(m, SumOfProducts(xs, ys), Sum(xs), Sum(ys)),
      CoMoment(m, SumOfProducts(xs, xs), Sum(xs), Sum(xs)),
      CoMoment(m, SumOfProducts(ys, ys), Sum(ys), Sum(ys)), sqrt);
  }

  /** Only the common prefix of the two series enters the result. */
  lemma PearsonUsesCommonPrefix(x: seq<real>, y: seq<real>, sqrt: real -> real)
    ensures Pearson(x, y, sqrt) == Pearson(x[..Min(|x|, |y|)], y[..Min(|x|, |y|)], sqrt)
  {
    var n := Min(|x|, |y|);
    assert x[..n][..n] == x[..n] && y[..n][..n] == y[..n];
  }

  lemma {:induction false} SumOfSquaresConstant(x: seq<real>, c: real)
    requires forall i :: 0 <= i < |x| ==> x[i] == c
    ensures SumOfProducts(x, x) == |x| as real * (c * c)
  {
    if |x| > 0 {
      SumOfSquaresConstant(x[..|x| - 1], c);
    }
  }

  /** A series constant over the common prefix has no variance, so the
      zero-denominator fallback gives 0 (when the root of 0 is 0). */
  lemma PearsonOfConstant(x: seq<real>, y: seq<real>, c: real, sqrt: real -> real)
    requires forall i :: 0 <= i < Min(|x|, |y|) ==> x[i] == c
    requires sqrt(0.0) == 0.0
    ensures Pearson(x, y, sqrt) == 0.0
  {
    var n := Min(|x|, |y|);
    var xs, ys := x[..n], y[..n];
    SumConstant(xs, c);
    SumOfSquaresConstant(xs, c);
    var m := n as real;
    assert CoMoment(m, SumOfProducts(xs, xs), Sum(xs), Sum(xs)) == m * (m * (c * c)) - (m * c) * (m * c);
    var varY := CoMoment(m, SumOfProducts(ys, ys), Sum(ys), Sum(ys));
    assert 0.0 * varY == 0.0;
    assert Pearson(x, y, sqrt) == CorrelationRatio(CoMoment(m, SumOfProducts(xs, ys), Sum(xs), Sum(ys)), 0.0, varY, sqrt);
  }

  /** Every symbol has a series (the map lookup does not return null). */
  predicate AllListed(series: ReturnSeriesSet, symbols: seq<string>)
  {
    forall i :: 0 <= i < |symbols| ==> Lookup(series, symbols[i]).Some?
  }

  /** Entry (i, j) of the matrix calculateCorrelationMatrix returns. */
  function CorrelationEntry(series: ReturnSeriesSet, symbols: seq<string>, i: nat, j: nat,
                            sqrt: real -> real): real
    requires i < |symbols| && j < |symbols|
    requires i != j ==> AllListed(series, symbols)
  {
    if i == j then 1.0
    else Pearson(Lookup(series, symbols[i]).value, Lookup(series, symbols[j]).value, sqrt)
  }

  /** The matrix is symmetric with a unit diagonal. */
  lemma CorrelationMatrixSymmetric(series: ReturnSeriesSet, symbols: seq<string>, sqrt: real -> real)
    requires |symbols| > 1 ==> AllListed(series, symbols)
    ensures forall i :: 0 <= i < |symbols| ==> CorrelationEntry(series, symbols, i, i, sqrt) == 1.0
    ensures forall i, j :: 0 <= i < |symbols| && 0 <= j < |symbols| ==>
      CorrelationEntry(series, symbols, i, j, sqrt) == CorrelationEntry(series, symbols, j, i, sqrt)
  {
    forall i, j | 0 <= i < |symbols| && 0 <= j < |symbols| && i != j
      ensures CorrelationEntry(series, symbols, i, j, sqrt) == CorrelationEntry(series, symbols, j, i, sqrt)
    {
      PearsonSymmetric(Lookup(series, symbols[i]).value, Lookup(series, symbols[j]).value, sqrt);
    }
  }

  /** calculateCorrelationMatrix: fills an n x n matrix row by row, forcing the
      diagonal to 1. A symbol without a series fails only when the matrix has
      an off-diagonal entry to compute. */
  method CalculateCorrelationMatrix(series: ReturnSeriesSet, symbols: seq<string>, sqrt: real -> real)
    returns (m: array2<real>)
    requires |symbols| > 1 ==> AllListed(series, symbols)
    ensures fresh(m) && m.Length0 == |symbols| && m.Length1 == |symbols|
    ensures forall i, j :: 0 <= i < |symbols| && 0 <= j < |symbols| ==>
      m[i, j] == CorrelationEntry(series, symbols, i, j, sqrt)
  {
    var n := |symbols|;
    m := new real[n, n];
    for i := 0 to n
      invariant forall r, k :: 0 <= r < i && 0 <= k < n ==> m[r, k] == CorrelationEntry(series, symbols, r, k, sqrt)
    {
      for j := 0 to n
        invariant forall r, k :: 0 <= r < i && 0 <= k < n ==> m[r, k] == CorrelationEntry(series, symbols, r, k, sqrt)
        invariant forall k :: 0 <= k < j ==> m[i, k] == CorrelationEntry(series, symbols, i, k, sqrt)
      {
        if i == j {
          m[i, j] := 1.0;
        } else {
          var x := Lookup(series, symbols[i]).value;
          var y := Lookup(series, symbols[j]).value;
          m[i, j] := CalculateCorrelation(x, y, sqrt);
        }
      }
    }
  }
}

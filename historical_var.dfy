/** Historical-simulation Value-at-Risk (calculatePortfolioVaR): sort the
    portfolio returns, read the order statistic at the truncated tail index,
    average the tail up to it, and annualise the population variance. */
module HistoricalVaR {
  import opened Numerics
  import opened Sorting
  import opened Aggregation

  /** Trading days per year used to annualise the daily variance. */
  const TRADING_DAYS: real := 252.0

  datatype VaRResult = VaRResult(
    portfolioValue: real,
    vaR: real,
    confidence: real,
    expectedShortfall: real,
    timeHorizon: int,
    volatility: real)
  {
    /** getVaRPercentage: VaR as a percentage of the portfolio value. */
    function VaRPercentage(): (q: Quotient)
      ensures q.Finite? <==> portfolioValue != 0.0
      ensures q.Finite? ==> q.value * portfolioValue == vaR * 100.0
    {
      Percentage(vaR, portfolioValue)
    }
  }

  /** `(int) ((1 - confidence) * length)`: the index of the VaR order statistic. */
  function VaRIndex(confidence: real, length: nat): int
  {
    TruncateToInt((1.0 - confidence) * length as real)
  }

  /** The index lies inside a series of `length` returns exactly when the
      confidence lies in (0, 1 + 1/length); in particular for every confidence
      in (0, 1). Confidence 1 is accepted and reads the worst return. */
  lemma VaRIndexInBounds(confidence: real, length: nat)
    requires length >= 1
    ensures 0 <= VaRIndex(confidence, length) < length
        <==> 0.0 < confidence < 1.0 + 1.0 / length as real
    ensures 0.0 < confidence < 1.0 ==> 0 <= VaRIndex(confidence, length) <= length - 1
  {
    var n := length as real;
    TruncateInRange((1.0 - confidence) * n, length);
    TailFractionAboveMinusOne(confidence, n);
    TailFractionBelowLength(confidence, n);
  }

  lemma TailFractionAboveMinusOne(confidence: real, n: real)
    requires n > 0.0
    ensures -1.0 < (1.0 - confidence) * n <==> confidence < 1.0 + 1.0 / n
  {
    var cn := confidence * n;
    assert (1.0 - confidence) * n == n - cn;
    var bound := 1.0 + 1.0 / n;
    assert bound * n == n + 1.0;
    ScaleStrict(confidence, bound, n);
  }

  lemma TailFractionBelowLength(confidence: real, n: real)
    requires n > 0.0
    ensures (1.0 - confidence) * n < n <==> 0.0 < confidence
  {
    assert (1.0 - confidence) * n == n - confidence * n;
    ScaleStrict(0.0, confidence, n);
  }

  /** Raising the confidence moves the index toward the worst return (index 0);
      it never increases. */
  lemma VaRIndexAntitone(c1: real, c2: real, length: nat)
    requires c1 <= c2
    ensures VaRIndex(c2, length) <= VaRIndex(c1, length)
  {
    assert (1.0 - c2) * length as real <= (1.0 - c1) * length as real;
    TruncateMonotone((1.0 - c2) * length as real, (1.0 - c1) * length as real);
  }

  /** A return turned into a currency loss over the horizon: negated, times the
      portfolio value and the horizon factor. */
  function ScaledLoss(ret: real, portfolioValue: real, scale: real): real
  {
    -ret * portfolioValue * scale
  }

  /** VaR: the loss at the order statistic the index selects, scaled by the
      portfolio value and the horizon factor `scale` (Math.sqrt(days)). */
  ghost function VaRLoss(daily: seq<real>, confidence: real, portfolioValue: real, scale: real): real
    requires 0 <= VaRIndex(confidence, |daily|) < |daily|
  {
    ScaledLoss(SortAsc(daily)[VaRIndex(confidence, |daily|)], portfolioValue, scale)
  }

  /** Expected Shortfall: the negated mean of the ascending returns up to and
      including the VaR index, scaled as VaR is. */
  ghost function ShortfallLoss(daily: seq<real>, confidence: real, portfolioValue: real, scale: real): real
    requires 0 <= VaRIndex(confidence, |daily|) < |daily|
  {
    ScaledLoss(Mean(SortAsc(daily)[..VaRIndex(confidence, |daily|) + 1]), portfolioValue, scale)
  }

  /** Annualised volatility: the root of 252 times the population variance. */
  function AnnualVolatility(daily: seq<real>, sqrt: real -> real): real
  {
    sqrt(PopulationVariance(daily) * TRADING_DAYS)
  }

  /** The result calculatePortfolioVaR returns for a portfolio return series,
      where `sqrt` stands for Math.sqrt. */
  ghost function HistoricalVaR(daily: seq<real>, portfolioValue: real, confidence: real, days: int,
                         sqrt: real -> real): VaRResult
    requires 0 <= VaRIndex(confidence, |daily|) < |daily|
  {
    var scale := sqrt(days as real);
    VaRResult(
      portfolioValue,
      VaRLoss(daily, confidence, portfolioValue, scale),
      confidence,
      ShortfallLoss(daily, confidence, portfolioValue, scale),
      days,
      AnnualVolatility(daily, sqrt))
  }

  /** calculatePortfolioVaR: aggregates, clones and sorts, reads the VaR
      return, accumulates the tail for Expected Shortfall, and annualises. */
  method CalculatePortfolioVaR(series: ReturnSeriesSet, weights: seq<real>, portfolioValue: real,
                               confidence: real, days: int, sqrt: real -> real)
    returns (r: VaRResult)
    requires Aggregable(series, weights)
    requires 0 <= VaRIndex(confidence, SeriesLength(series)) < SeriesLength(series)
    ensures r == HistoricalVaR(PortfolioReturns(series, weights), portfolioValue, confidence, days, sqrt)
  {
    var portfolioReturns := CalculatePortfolioReturns(series, weights);
    var sortedReturns := new real[|portfolioReturns|](i requires 0 <= i < |portfolioReturns| => portfolioReturns[i]);
    assert sortedReturns[..] == portfolioReturns;
    SortInPlace(sortedReturns);
    ghost var sorted := sortedReturns[..];
    assert sorted == SortAsc(portfolioReturns);
    var scale := sqrt(days as real);

    var varIndex := VaRIndex(confidence, sortedReturns.Length);
    var varReturn := sortedReturns[varIndex];
    var vaR := ScaledLoss(varReturn, portfolioValue, scale);
    assert vaR == VaRLoss(portfolioReturns, confidence, portfolioValue, scale);

    var expectedShortfall := TailSum(sortedReturns, varIndex);
    assert expectedShortfall / (varIndex + 1) as real == Mean(sorted[..varIndex + 1]);
    expectedShortfall := ScaledLoss(expectedShortfall / (varIndex + 1) as real, portfolioValue, scale);
    assert expectedShortfall == ShortfallLoss(portfolioReturns, confidence, portfolioValue, scale);

    var volatility := AnnualVolatility(portfolioReturns, sqrt);
    r := VaRResult(portfolioValue, vaR, confidence, expectedShortfall, days, volatility);
  }

  /** The Expected Shortfall loop: the sum of the ascending returns up to and
      including the VaR index. */
  method TailSum(sortedReturns: array<real>, varIndex: nat) returns (total: real)
    requires varIndex < sortedReturns.Length
    ensures total == Sum(sortedReturns[..varIndex + 1])
  {
    total := 0.0;
    for i := 0 to varIndex + 1
      invariant total == Sum(sortedReturns[..i])
    {
      assert sortedReturns[..i + 1] == sortedReturns[..i] + [sortedReturns[i]];
      SumAppend(sortedReturns[..i], sortedReturns[i]);
      total := total + sortedReturns[i];
    }
  }

  /** With a non-negative value and scale, a higher confidence never gives a
      smaller VaR. */
  lemma VaRMonotoneInConfidence(daily: seq<real>, portfolioValue: real, c1: real, c2: real,
                                days: int, sqrt: real -> real)
    requires 0 <= VaRIndex(c1, |daily|) < |daily|
    requires 0 <= VaRIndex(c2, |daily|) < |daily|
    requires c1 <= c2
    requires portfolioValue >= 0.0 && sqrt(days as real) >= 0.0
    ensures HistoricalVaR(daily, portfolioValue, c1, days, sqrt).vaR
         <= HistoricalVaR(daily, portfolioValue, c2, days, sqrt).vaR
  {
    var sorted := SortAsc(daily);
    VaRIndexAntitone(c1, c2, |daily|);
    var k1, k2 := VaRIndex(c1, |daily|), VaRIndex(c2, |daily|);
    assert sorted[k2] <= sorted[k1];
    ScaleLoss(sorted[k2], sorted[k1], portfolioValue, sqrt(days as real));
  }

  /** A higher return is a smaller loss when value and scale are non-negative. */
  lemma ScaleLoss(a: real, b: real, value: real, scale: real)
    requires a <= b && value >= 0.0 && scale >= 0.0
    ensures ScaledLoss(b, value, scale) <= ScaledLoss(a, value, scale)
  {
    assert (b - a) * value >= 0.0;
    assert (b - a) * value * scale >= 0.0;
  }

  /** The mean of an ascending prefix is at most its last element, so Expected
      Shortfall is at least VaR when value and scale are non-negative. */
  lemma ExpectedShortfallAtLeastVaR(daily: seq<real>, portfolioValue: real, confidence: real,
                                    days: int, sqrt: real -> real)
    requires 0 <= VaRIndex(confidence, |daily|) < |daily|
    requires portfolioValue >= 0.0 && sqrt(days as real) >= 0.0
    ensures HistoricalVaR(daily, portfolioValue, confidence, days, sqrt).expectedShortfall
         >= HistoricalVaR(daily, portfolioValue, confidence, days, sqrt).vaR
  {
    var sorted := SortAsc(daily);
    var k := VaRIndex(confidence, |daily|);
    var tail := sorted[..k + 1];
    assert forall i :: 0 <= i < |tail| ==> sorted[0] <= tail[i] <= sorted[k];
    MeanBounds(tail, sorted[0], sorted[k]);
    ScaleLoss(Mean(tail), sorted[k], portfolioValue, sqrt(days as real));
  }

  /** A constant return series `c`: VaR and Expected Shortfall are both the loss
      -c scaled, and the variance under the root is zero. */
  lemma ConstantReturns(daily: seq<real>, c: real, portfolioValue: real, confidence: real,
                        days: int, sqrt: real -> real)
    requires forall i :: 0 <= i < |daily| ==> daily[i] == c
    requires 0 <= VaRIndex(confidence, |daily|) < |daily|
    ensures var r := HistoricalVaR(daily, portfolioValue, confidence, days, sqrt);
      && r.vaR == -c * portfolioValue * sqrt(days as real)
      && r.expectedShortfall == r.vaR
      && r.volatility == sqrt(0.0)
  {
    var sorted := SortAsc(daily);
    var k := VaRIndex(confidence, |daily|);
    forall i | 0 <= i < |sorted| ensures sorted[i] == c {
      assert sorted[i] in multiset(daily);
    }
    var tail := sorted[..k + 1];
    MeanBounds(tail, c, c);
    PopulationVarianceOfConstant(daily, c);
  }

  /** Aggregation of equal asset returns feeds a constant portfolio series: with
      every asset returning `c` each day and weights summing to 1, the
      portfolio return is `c` every day. */
  lemma UniformAssetsGiveConstantPortfolio(series: ReturnSeriesSet, weights: seq<real>, c: real)
    requires Aggregable(series, weights)
    requires SeriesLength(series) > 0
    requires forall k, t :: 0 <= k < |series| && 0 <= t < SeriesLength(series) ==> series[k].1[t] == c
    requires Sum(weights[..|series|]) == 1.0
    ensures forall t :: 0 <= t < SeriesLength(series) ==> PortfolioReturns(series, weights)[t] == c
  {
    forall t | 0 <= t < SeriesLength(series)
      ensures PortfolioReturns(series, weights)[t] == c
    {
      WeightedReturnOfUniformDay(series, weights, t, |series|, c);
    }
  }

  /** VaR and Expected Shortfall are linear in the horizon factor: results for
      horizons d1 and d2 differ by the ratio of sqrt(d1) to sqrt(d2). */
  lemma HorizonScaling(daily: seq<real>, portfolioValue: real, confidence: real, d1: int, d2: int,
                       sqrt: real -> real)
    requires 0 <= VaRIndex(confidence, |daily|) < |daily|
    ensures var r1 := HistoricalVaR(daily, portfolioValue, confidence, d1, sqrt);
      var r2 := HistoricalVaR(daily, portfolioValue, confidence, d2, sqrt);
      && r1.vaR * sqrt(d2 as real) == r2.vaR * sqrt(d1 as real)
      && r1.expectedShortfall * sqrt(d2 as real) == r2.expectedShortfall * sqrt(d1 as real)
  {
    var sorted := SortAsc(daily);
    var k := VaRIndex(confidence, |daily|);
    SwapScale(sorted[k], portfolioValue, sqrt(d1 as real), sqrt(d2 as real));
    SwapScale(Mean(sorted[..k + 1]), portfolioValue, sqrt(d1 as real), sqrt(d2 as real));
  }

  lemma SwapScale(ret: real, value: real, s1: real, s2: real)
    ensures ScaledLoss(ret, value, s1) * s2 == ScaledLoss(ret, value, s2) * s1
  {
    var a := -ret * value;
    assert a * s1 * s2 == a * s2 * s1;
  }

  /** Two assets returning -1% on each of 100 days, equal weights, value
      1,000,000, confidence 0.95, one day: the VaR index is 5, and VaR and
      Expected Shortfall are both 10,000 with zero variance under the root. */
  lemma ConstantPortfolioExample(series: ReturnSeriesSet, sqrt: real -> real)
    requires |series| == 2
    requires forall k :: 0 <= k < 2 ==> series[k].1 == seq(100, _ => -0.01)
    requires sqrt(1.0) == 1.0
    ensures Aggregable(series, [0.5, 0.5])
    ensures var r := HistoricalVaR(PortfolioReturns(series, [0.5, 0.5]), 1000000.0, 0.95, 1, sqrt);
      && r.vaR == 10000.0 && r.expectedShortfall == 10000.0 && r.volatility == sqrt(0.0)
  {
    var weights := [0.5, 0.5];
    assert Sum(weights[..2]) == 1.0 by {
      assert weights[..2][..1] == [0.5];
      assert [0.5][..0] == [];
    }
    UniformAssetsGiveConstantPortfolio(series, weights, -0.01);
    var daily := PortfolioReturns(series, weights);
    assert VaRIndex(0.95, 100) == 5;
    ConstantReturns(daily, -0.01, 1000000.0, 0.95, 1, sqrt);
  }
}

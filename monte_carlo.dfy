/** Monte Carlo summary (runMonteCarlo): every simulation is an equal-weight
    average of per-asset draws scaled to the portfolio value; the sorted
    outcomes give the 95% and 99% VaR, the expected loss, and the worst and
    best cases. The standard normal draws are an input. */
module MonteCarlo {
  import opened Numerics
  import opened Sorting

  /** The daily volatility each simulated asset return is scaled by. */
  const DAILY_VOLATILITY: real := 0.02

  datatype MonteCarloResult = MonteCarloResult(
    numSimulations: int,
    vaR95: real,
    vaR99: real,
    expectedLoss: real,
    worstCase: real,
    bestCase: real)

  /** One asset's contribution `g * 0.02 / n` to an equal-weight portfolio of `n` assets. */
  function Share(g: real, n: nat): real
    requires n > 0
  {
    g * DAILY_VOLATILITY / n as real
  }

  /** The portfolio return after the first `k` assets of one simulation, whose
      draws are `draw` (one per symbol). */
  function PartialReturn(draw: seq<real>, k: nat): real
    requires k <= |draw|
  {
    if k == 0 then 0.0 else PartialReturn(draw, k - 1) + Share(draw[k - 1], |draw|)
  }

  /** The simulated outcome: the portfolio return times the portfolio value. */
  function Outcome(draw: seq<real>, portfolioValue: real): real
  {
    PartialReturn(draw, |draw|) * portfolioValue
  }

  function Outcomes(draws: seq<seq<real>>, portfolioValue: real): (o: seq<real>)
    ensures |o| == |draws|
  {
    seq(|draws|, i requires 0 <= i < |draws| => Outcome(draws[i], portfolioValue))
  }

  /** `(int) (p * n)`: the percentile index among `n` sorted outcomes; inside
      the array for every fraction in [0, 1). */
  function PercentileIndex(p: real, n: nat): (k: int)
    ensures 0.0 <= p < 1.0 && n >= 1 ==> 0 <= k < n
  {
    var k := TruncateToInt(p * n as real);
    assert 0.0 <= p < 1.0 && n >= 1 ==> p * n as real < n as real;
    k
  }

  /** A smaller fraction never gives a larger index. */
  lemma PercentileIndexMonotone(p1: real, p2: real, n: nat)
    requires p1 <= p2
    ensures PercentileIndex(p1, n) <= PercentileIndex(p2, n)
  {
    assert p1 * n as real <= p2 * n as real;
    TruncateMonotone(p1 * n as real, p2 * n as real);
  }

  /** The result runMonteCarlo returns for the given simulated outcomes. */
  ghost function Summary(outcomes: seq<real>): (r: MonteCarloResult)
    requires |outcomes| >= 1
  {
    var sorted := SortAsc(outcomes);
    var n := |outcomes|;
    MonteCarloResult(
      n,
      -sorted[PercentileIndex(0.05, n)],
      -sorted[PercentileIndex(0.01, n)],
      -Mean(sorted),
      -sorted[0],
      -sorted[n - 1])
  }

  /** runMonteCarlo with its Gaussian draws supplied: `draws[i][k]` is the draw
      for symbol `k` in simulation `i`. */
  method RunMonteCarlo(symbols: seq<string>, portfolioValue: real, numSims: int, draws: seq<seq<real>>)
    returns (r: MonteCarloResult)
    requires numSims >= 1 && |draws| == numSims
    requires forall i :: 0 <= i < numSims ==> |draws[i]| == |symbols|
    ensures r.numSimulations == numSims
    ensures r == Summary(Outcomes(draws, portfolioValue))
  {
    var simulatedReturns := new real[numSims];
    for i := 0 to numSims
      invariant forall t :: 0 <= t < i ==> simulatedReturns[t] == Outcome(draws[t], portfolioValue)
    {
      var portfolioReturn := 0.0;
      for k := 0 to |symbols|
        invariant portfolioReturn == PartialReturn(draws[i], k)
      {
        var assetReturn := draws[i][k] * DAILY_VOLATILITY;
        portfolioReturn := portfolioReturn + assetReturn / |symbols| as real;
      }
      simulatedReturns[i] := portfolioReturn * portfolioValue;
    }
    assert simulatedReturns[..] == Outcomes(draws, portfolioValue);

    SortInPlace(simulatedReturns);

    var var95 := -simulatedReturns[PercentileIndex(0.05, numSims)];
    var var99 := -simulatedReturns[PercentileIndex(0.01, numSims)];
    var expectedLoss := -Mean(simulatedReturns[..]);
    var worstCase := -simulatedReturns[0];
    var bestCase := -simulatedReturns[numSims - 1];
    r := MonteCarloResult(numSims, var95, var99, expectedLoss, worstCase, bestCase);
  }

  /** The summary figures are ordered: the worst case bounds the 99% VaR, which
      bounds the 95% VaR, which bounds the best case; the expected loss lies
      between the best and the worst case. */
  lemma SummaryOrdered(outcomes: seq<real>)
    requires |outcomes| >= 1
    ensures var r := Summary(outcomes);
      && r.worstCase >= r.vaR99 >= r.vaR95 >= r.bestCase
      && r.bestCase <= r.expectedLoss <= r.worstCase
  {
    var sorted := SortAsc(outcomes);
    var n := |outcomes|;
    PercentileIndexMonotone(0.01, 0.05, n);
    var k95, k99 := PercentileIndex(0.05, n), PercentileIndex(0.01, n);
    assert sorted[0] <= sorted[k99] <= sorted[k95] <= sorted[n - 1];
    assert forall i :: 0 <= i < n ==> sorted[0] <= sorted[i] <= sorted[n - 1];
    MeanBounds(sorted, sorted[0], sorted[n - 1]);
  }

  /** With a single simulation all five figures are the loss of that outcome. */
  lemma SingleSimulation(outcomes: seq<real>)
    requires |outcomes| == 1
    ensures var r := Summary(outcomes);
      && r.vaR95 == -outcomes[0] && r.vaR99 == -outcomes[0] && r.expectedLoss == -outcomes[0]
      && r.worstCase == -outcomes[0] && r.bestCase == -outcomes[0]
  {
    var sorted := SortAsc(outcomes);
    assert sorted[0] in multiset(outcomes);
    assert Sum(sorted) == sorted[0];
  }

  lemma {:induction false} PartialReturnUniform(draw: seq<real>, k: nat, g: real)
    requires 1 <= |draw| && k <= |draw|
    requires forall i :: 0 <= i < |draw| ==> draw[i] == g
    ensures PartialReturn(draw, k) == k as real * Share(g, |draw|)
  {
    if k > 0 {
      PartialReturnUniform(draw, k - 1, g);
    }
  }

  /** Equal weights sum to one: when every asset draws the same `g`, the
      outcome is `g * 0.02` times the portfolio value, for any non-zero symbol count. */
  lemma UniformDrawOutcome(draw: seq<real>, g: real, portfolioValue: real)
    requires |draw| >= 1
    requires forall i :: 0 <= i < |draw| ==> draw[i] == g
    ensures Outcome(draw, portfolioValue) == g * DAILY_VOLATILITY * portfolioValue
  {
    PartialReturnUniform(draw, |draw|, g);
    var n := |draw| as real;
    assert n * (g * DAILY_VOLATILITY / n) == g * DAILY_VOLATILITY;
  }

  /** With no symbols every simulated outcome is zero. */
  lemma NoSymbolsNoRisk(draws: seq<seq<real>>, portfolioValue: real)
    requires |draws| >= 1
    requires forall i :: 0 <= i < |draws| ==> |draws[i]| == 0
    ensures var r := Summary(Outcomes(draws, portfolioValue));
      r.vaR95 == 0.0 && r.vaR99 == 0.0 && r.expectedLoss == 0.0 && r.worstCase == 0.0 && r.bestCase == 0.0
  {
    var outcomes := Outcomes(draws, portfolioValue);
    forall i | 0 <= i < |outcomes| ensures outcomes[i] == 0.0 {
      assert |draws[i]| == 0;
    }
    var sorted := SortAsc(outcomes);
    forall i | 0 <= i < |sorted| ensures sorted[i] == 0.0 {
      assert sorted[i] in multiset(outcomes);
    }
    SumConstant(sorted, 0.0);
  }
}

/** Portfolio aggregation: the daily portfolio return is the weighted sum of the
    asset returns, weights aligned with the return map's symbol order. */
module Aggregation {
  import opened Numerics

  predicate UniqueSymbols(s: seq<(string, seq<real>)>)
  {
    forall i, j :: 0 <= i < j < |s| ==> s[i].0 != s[j].0
  }

  /** A symbol -> return-series map, written as its entries in iteration order,
      so that the alignment with a weights vector is explicit. */
  type ReturnSeriesSet = s: seq<(string, seq<real>)> | UniqueSymbols(s)

  /** The series of `symbol`, as the map's `get` returns it (None for null). */
  function Lookup(series: ReturnSeriesSet, symbol: string): (r: Option<seq<real>>)
    ensures r.Some? <==> exists k :: 0 <= k < |series| && series[k].0 == symbol
    ensures forall k :: 0 <= k < |series| && series[k].0 == symbol ==> r == Some(series[k].1)
  {
    if |series| == 0 then None
    else if series[0].0 == symbol then Some(series[0].1)
    else Lookup(series[1..], symbol)
  }

  datatype Option<T> = None | Some(value: T)

  /** The length of the first series in iteration order: the length of the
      portfolio series. */
  function SeriesLength(series: ReturnSeriesSet): nat
    requires |series| > 0
  {
    |series[0].1|
  }

  /** What the aggregation indexes without failing: a first symbol exists, every
      series is at least as long as the first one, and, when there is a day to
      aggregate at all, a weight exists for every symbol. */
  predicate Aggregable(series: ReturnSeriesSet, weights: seq<real>)
  {
    && |series| > 0
    && (forall k :: 0 <= k < |series| ==> |series[k].1| >= SeriesLength(series))
    && (SeriesLength(series) > 0 ==> |weights| >= |series|)
  }

  /** Sum over the first `n` assets of asset return on day `t` times weight. */
  function WeightedReturn(series: ReturnSeriesSet, weights: seq<real>, t: nat, n: nat): real
    requires n <= |series| && n <= |weights|
    requires forall k :: 0 <= k < n ==> t < |series[k].1|
  {
    if n == 0 then 0.0
    else WeightedReturn(series, weights, t, n - 1) + series[n - 1].1[t] * weights[n - 1]
  }

  /** The portfolio return series: one weighted sum per day of the first series. */
  function PortfolioReturns(series: ReturnSeriesSet, weights: seq<real>): (p: seq<real>)
    requires Aggregable(series, weights)
    ensures |p| == SeriesLength(series)
  {
    seq(SeriesLength(series), t requires 0 <= t < SeriesLength(series) =>
      WeightedReturn(series, weights, t, |series|))
  }

  /** calculatePortfolioReturns: fills the result day by day, walking the
      symbols in iteration order with a running asset index. */
  method CalculatePortfolioReturns(series: ReturnSeriesSet, weights: seq<real>) returns (p: seq<real>)
    requires Aggregable(series, weights)
    ensures |p| == |series[0].1|
    ensures forall t :: 0 <= t < |p| ==> p[t] == WeightedReturn(series, weights, t, |series|)
    ensures p == PortfolioReturns(series, weights)
  {
    var length := |series[0].1|;
    var portfolioReturns := new real[length];
    for i := 0 to length
      invariant forall t :: 0 <= t < i ==>
        portfolioReturns[t] == WeightedReturn(series, weights, t, |series|)
    {
      var portfolioReturn := 0.0;
      var assetIndex := 0;
      while assetIndex < |series|
        invariant 0 <= assetIndex <= |series|
        invariant portfolioReturn == WeightedReturn(series, weights, i, assetIndex)
      {
        portfolioReturn := portfolioReturn + series[assetIndex].1[i] * weights[assetIndex];
        assetIndex := assetIndex + 1;
      }
      portfolioReturns[i] := portfolioReturn;
    }
    p := portfolioReturns[..];
  }

  /** When every asset returns `c` on day `t`, the portfolio returns `c` times
      the total weight: weights are not normalised. */
  lemma {:induction false} WeightedReturnOfUniformDay(series: ReturnSeriesSet, weights: seq<real>, t: nat, n: nat, c: real)
    requires n <= |series| && n <= |weights|
    requires forall k :: 0 <= k < n ==> t < |series[k].1| && series[k].1[t] == c
    ensures WeightedReturn(series, weights, t, n) == c * Sum(weights[..n])
  {
    if n > 0 {
      WeightedReturnOfUniformDay(series, weights, t, n - 1, c);
      assert weights[..n] == weights[..n - 1] + [weights[n - 1]];
      SumAppend(weights[..n - 1], weights[n - 1]);
    }
  }
}

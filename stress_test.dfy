/** Scenario stress tests (applyStressShocks and its three scenario wrappers):
    equal-weighted losses from a symbol -> shock table with a default shock,
    and the worst-hit asset by a running maximum of |shock|. */
module StressTest {
  import opened Numerics

  /** Shock applied to a symbol the table does not list (-20%). */
  const DEFAULT_SHOCK: real := -0.20

  datatype StressTestResult = StressTestResult(
    scenario: string,
    loss: real,
    lossPercentage: Quotient,
    worstAsset: string,
    worstAssetLoss: real)

  /** `shocks.getOrDefault(symbol, -0.20)`. */
  function ShockOf(shocks: map<string, real>, symbol: string): real
  {
    if symbol in shocks then shocks[symbol] else DEFAULT_SHOCK
  }

  /** Loss of one of `n` equally weighted assets: `portfolioValue * shock / n`. */
  function AssetLoss(portfolioValue: real, shock: real, n: nat): real
    requires n > 0
  {
    portfolioValue * shock / n as real
  }

  /** Sum of the per-asset losses over `symbols`. */
  function AssetLossSum(symbols: seq<string>, portfolioValue: real, shocks: map<string, real>, n: nat): real
    requires n > 0
  {
    if |symbols| == 0 then 0.0
    else AssetLossSum(symbols[..|symbols| - 1], portfolioValue, shocks, n)
         + AssetLoss(portfolioValue, ShockOf(shocks, symbols[|symbols| - 1]), n)
  }

  lemma AssetLossSumStep(prefix: seq<string>, symbol: string, portfolioValue: real,
                         shocks: map<string, real>, n: nat)
    requires n > 0
    ensures AssetLossSum(prefix + [symbol], portfolioValue, shocks, n)
         == AssetLossSum(prefix, portfolioValue, shocks, n) + AssetLoss(portfolioValue, ShockOf(shocks, symbol), n)
  {
    assert (prefix + [symbol])[..|prefix|] == prefix;
  }

  /** The running (worstAsset, worstLoss) pair after scanning `symbols`: a
      symbol replaces the current one only when its |shock| is strictly larger. */
  function Worst(symbols: seq<string>, shocks: map<string, real>): (string, real)
  {
    if |symbols| == 0 then ("", 0.0)
    else
      var (asset, loss) := Worst(symbols[..|symbols| - 1], shocks);
      var shock := ShockOf(shocks, symbols[|symbols| - 1]);
      if Abs(shock) > Abs(loss) then (symbols[|symbols| - 1], shock) else (asset, loss)
  }

  /** The result applyStressShocks returns. */
  function StressOutcome(symbols: seq<string>, portfolioValue: real, shocks: map<string, real>,
                         scenario: string): StressTestResult
  {
    var totalLoss := if |symbols| == 0 then 0.0 else AssetLossSum(symbols, portfolioValue, shocks, |symbols|);
    var (asset, loss) := Worst(symbols, shocks);
    StressTestResult(scenario, -totalLoss, Percentage(-totalLoss, portfolioValue), asset, loss * 100.0)
  }

  /** applyStressShocks: one pass over the symbols accumulating the total loss
      and the running worst asset. */
  method ApplyStressShocks(symbols: seq<string>, portfolioValue: real, shocks: map<string, real>,
                           scenario: string) returns (r: StressTestResult)
    ensures r == StressOutcome(symbols, portfolioValue, shocks, scenario)
  {
    var totalLoss := 0.0;
    var worstAsset := "";
    var worstLoss := 0.0;
    for i := 0 to |symbols|
      invariant |symbols| > 0 ==> totalLoss == AssetLossSum(symbols[..i], portfolioValue, shocks, |symbols|)
      invariant |symbols| == 0 ==> totalLoss == 0.0
      invariant (worstAsset, worstLoss) == Worst(symbols[..i], shocks)
    {
      var symbol := symbols[i];
      var shock := ShockOf(shocks, symbol);
      var assetLoss := AssetLoss(portfolioValue, shock, |symbols|);
      assert symbols[..i + 1] == symbols[..i] + [symbol];
      AssetLossSumStep(symbols[..i], symbol, portfolioValue, shocks, |symbols|);
      totalLoss := totalLoss + assetLoss;
      if Abs(shock) > Abs(worstLoss) {
        worstLoss := shock;
        worstAsset := symbol;
      }
    }
    assert symbols[..|symbols|] == symbols;
    r := StressTestResult(scenario, -totalLoss, Percentage(-totalLoss, portfolioValue),
                          worstAsset, worstLoss * 100.0);
  }

  /** When every symbol receives the same shock `c`, the equal-weighted losses
      add up to `count * value * c / n`. */
  lemma {:induction false} UniformLossSum(symbols: seq<string>, portfolioValue: real, shocks: map<string, real>,
                                          n: nat, c: real)
    requires n > 0
    requires forall i :: 0 <= i < |symbols| ==> ShockOf(shocks, symbols[i]) == c
    ensures AssetLossSum(symbols, portfolioValue, shocks, n) == |symbols| as real * AssetLoss(portfolioValue, c, n)
  {
    if |symbols| > 0 {
      UniformLossSum(symbols[..|symbols| - 1], portfolioValue, shocks, n, c);
    }
  }

  /** A uniform shock `c` on a non-empty symbol list loses exactly `-c` times
      the portfolio value, whatever the number of symbols. */
  lemma UniformShockLoss(symbols: seq<string>, portfolioValue: real, shocks: map<string, real>,
                         scenario: string, c: real)
    requires |symbols| > 0
    requires forall i :: 0 <= i < |symbols| ==> ShockOf(shocks, symbols[i]) == c
    ensures StressOutcome(symbols, portfolioValue, shocks, scenario).loss == -c * portfolioValue
  {
    var n := |symbols| as real;
    UniformLossSum(symbols, portfolioValue, shocks, |symbols|, c);
    assert n * (portfolioValue * c / n) == portfolioValue * c;
  }

  /** With an empty shock table every symbol takes the default shock, so the
      loss is 20% of the portfolio value. */
  lemma EmptyTableLoss(symbols: seq<string>, portfolioValue: real, scenario: string)
    requires |symbols| > 0
    ensures StressOutcome(symbols, portfolioValue, map[], scenario).loss == 0.20 * portfolioValue
  {
    UniformShockLoss(symbols, portfolioValue, map[], scenario, DEFAULT_SHOCK);
  }

  /** The worst asset is the first symbol whose |shock| is the largest: its
      |shock| bounds every other one and strictly exceeds every earlier one.
      When every shock is 0, no asset is reported and the worst loss is 0. */
  lemma {:induction false} WorstIsFirstLargest(symbols: seq<string>, shocks: map<string, real>)
    ensures forall j :: 0 <= j < |symbols| ==> Abs(ShockOf(shocks, symbols[j])) <= Abs(Worst(symbols, shocks).1)
    ensures (forall j :: 0 <= j < |symbols| ==> ShockOf(shocks, symbols[j]) == 0.0)
        ==> Worst(symbols, shocks) == ("", 0.0)
    ensures Worst(symbols, shocks).1 != 0.0 ==>
      exists i :: 0 <= i < |symbols|
        && Worst(symbols, shocks) == (symbols[i], ShockOf(shocks, symbols[i]))
        && forall j :: 0 <= j < i ==> Abs(ShockOf(shocks, symbols[j])) < Abs(Worst(symbols, shocks).1)
  {
    if |symbols| > 0 {
      var prefix := symbols[..|symbols| - 1];
      WorstIsFirstLargest(prefix, shocks);
      var last := |symbols| - 1;
      var shock := ShockOf(shocks, symbols[last]);
      var (asset, loss) := Worst(prefix, shocks);
      if Abs(shock) > Abs(loss) {
        assert Worst(symbols, shocks) == (symbols[last], shock);
        assert shock != 0.0;
      } else {
        assert Worst(symbols, shocks) == (asset, loss);
        if loss != 0.0 {
          var i :| 0 <= i < |prefix|
            && Worst(prefix, shocks) == (prefix[i], ShockOf(shocks, prefix[i]))
            && forall j :: 0 <= j < i ==> Abs(ShockOf(shocks, prefix[j])) < Abs(loss);
          assert symbols[i] == prefix[i];
        }
      }
    }
  }

  /** A non-zero uniform shock makes the first symbol the worst asset. */
  lemma {:induction false} UniformShockWorst(symbols: seq<string>, shocks: map<string, real>, c: real)
    requires |symbols| > 0 && c != 0.0
    requires forall i :: 0 <= i < |symbols| ==> ShockOf(shocks, symbols[i]) == c
    ensures Worst(symbols, shocks) == (symbols[0], c)
  {
    if |symbols| > 1 {
      var prefix := symbols[..|symbols| - 1];
      UniformShockWorst(prefix, shocks, c);
    }
  }

  /** customStressTest: fills a table with the same shock for every symbol and
      applies it. With a non-empty symbol list the loss is `-shock * value`; a
      non-zero shock names the first symbol as the worst asset. */
  method CustomStressTest(symbols: seq<string>, portfolioValue: real, shock: real)
    returns (r: StressTestResult)
    ensures r == StressOutcome(symbols, portfolioValue, map s | s in symbols :: shock, "Custom Stress")
    ensures r.scenario == "Custom Stress"
    ensures r.lossPercentage == Percentage(r.loss, portfolioValue)
    ensures |symbols| > 0 ==> r.loss == -shock * portfolioValue
    ensures |symbols| == 0 ==> r.loss == 0.0
    ensures r.worstAsset == if |symbols| > 0 && shock != 0.0 then symbols[0] else ""
    ensures r.worstAssetLoss == if |symbols| > 0 && shock != 0.0 then shock * 100.0 else 0.0
  {
    var shocks: map<string, real> := map[];
    for i := 0 to |symbols|
      invariant forall s :: s in shocks <==> s in symbols[..i]
      invariant forall s :: s in shocks ==> shocks[s] == shock
    {
      shocks := shocks[symbols[i] := shock];
    }
    assert symbols[..|symbols|] == symbols;
    assert shocks == map s | s in symbols :: shock;
    forall i | 0 <= i < |symbols| ensures ShockOf(shocks, symbols[i]) == shock {
      assert symbols[i] in shocks;
    }
    r := ApplyStressShocks(symbols, portfolioValue, shocks, "Custom Stress");
    if |symbols| > 0 {
      UniformShockLoss(symbols, portfolioValue, shocks, "Custom Stress", shock);
      if shock != 0.0 {
        UniformShockWorst(symbols, shocks, shock);
      } else {
        WorstIsFirstLargest(symbols, shocks);
      }
    }
  }

  /** Shocks of the 2008 financial crisis. */
  const CRISIS_2008_SHOCKS: map<string, real> := map[
    "SPY" := -0.37, "QQQ" := -0.42, "IWM" := -0.34,
    "AAPL" := -0.56, "MSFT" := -0.44, "GOOGL" := -0.65]

  /** Shocks of the March 2020 COVID-19 crash. */
  const COVID_2020_SHOCKS: map<string, real> := map[
    "SPY" := -0.34, "QQQ" := -0.25, "IWM" := -0.41,
    "AAPL" := -0.17, "MSFT" := -0.20, "GOOGL" := -0.21]

  method Stress2008Crisis(symbols: seq<string>, portfolioValue: real) returns (r: StressTestResult)
    ensures r == StressOutcome(symbols, portfolioValue, CRISIS_2008_SHOCKS, "2008 Financial Crisis")
  {
    r := ApplyStressShocks(symbols, portfolioValue, CRISIS_2008_SHOCKS, "2008 Financial Crisis");
  }

  method StressCovid2020(symbols: seq<string>, portfolioValue: real) returns (r: StressTestResult)
    ensures r == StressOutcome(symbols, portfolioValue, COVID_2020_SHOCKS, "COVID-19 Crash")
  {
    r := ApplyStressShocks(symbols, portfolioValue, COVID_2020_SHOCKS, "COVID-19 Crash");
  }

  /** The six tabled symbols under the 2008 scenario: GOOGL is hit worst, at -65%. */
  lemma Crisis2008WorstAsset()
    ensures Worst(["SPY", "QQQ", "IWM", "AAPL", "MSFT", "GOOGL"], CRISIS_2008_SHOCKS) == ("GOOGL", -0.65)
  {
    var s := ["SPY", "QQQ", "IWM", "AAPL", "MSFT", "GOOGL"];
    assert s[..5] == ["SPY", "QQQ", "IWM", "AAPL", "MSFT"];
    assert s[..5][..4] == ["SPY", "QQQ", "IWM", "AAPL"];
    assert s[..5][..4][..3] == ["SPY", "QQQ", "IWM"];
    assert s[..5][..4][..3][..2] == ["SPY", "QQQ"];
    assert s[..5][..4][..3][..2][..1] == ["SPY"];
    assert Worst(["SPY"], CRISIS_2008_SHOCKS) == ("SPY", -0.37);
    assert Worst(["SPY", "QQQ"], CRISIS_2008_SHOCKS) == ("QQQ", -0.42);
    assert Worst(["SPY", "QQQ", "IWM"], CRISIS_2008_SHOCKS) == ("QQQ", -0.42);
    assert Worst(["SPY", "QQQ", "IWM", "AAPL"], CRISIS_2008_SHOCKS) == ("AAPL", -0.56);
    assert Worst(["SPY", "QQQ", "IWM", "AAPL", "MSFT"], CRISIS_2008_SHOCKS) == ("AAPL", -0.56);
  }

  /** An untabled symbol next to a tabled one: TSLA takes the default -20%,
      which beats the tabled AAPL shock of -17% under the COVID scenario. */
  lemma CovidDefaultShockWins()
    ensures Worst(["AAPL", "TSLA"], COVID_2020_SHOCKS) == ("TSLA", -0.20)
  {
    assert ["AAPL", "TSLA"][..1] == ["AAPL"];
    assert "TSLA" !in COVID_2020_SHOCKS;
  }
}

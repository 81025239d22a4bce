# QuantRisk risk engine — a Dafny model

This project models the computational core of the QuantRisk command-line risk
tool: the `RiskCalculator` engine, the `Portfolio` position container and the
VaR percentage that `VaRResult` derives. Everything is stated over exact real
numbers.

- **Historical VaR** (`HistoricalVaR`): aggregates the asset return series into
  a weighted portfolio series (`Aggregation`), sorts it (`Sorting`), reads the
  order statistic at the truncated tail index `(int)((1 - c) * L)`, and averages
  the tail up to that index for Expected Shortfall. Both figures are scaled by
  the portfolio value and the square root of the horizon. The population
  variance, annualised over 252 trading days, gives the volatility.
- **Stress tests** (`StressTest`): the equal-weighted loss under a shock table
  with a −20% default. The worst asset is found by a strict running maximum of
  |shock|. The 2008, COVID-2020 and custom scenarios are modelled.
- **Correlation** (`Correlation`): the sum-based Pearson formula over the common
  prefix of two series, with 0 when the root in the denominator is 0. The
  correlation matrix has a forced unit diagonal.
- **Monte Carlo** (`MonteCarlo`): equal-weight simulated outcomes, sorted. The
  95%/99% VaR, expected loss, worst case and best case are read from them.
  The Gaussian draws are an input.
- **Portfolio** (`Portfolios`): three symbol-keyed maps, overwritten together by
  `addPosition`, and read back as a symbol list, an aligned weight vector and
  the total market value.

Each method that computes step by step is proved against a specification
function, and the properties of those functions are proved as lemmas:
- ES ≥ VaR;
- VaR is monotone in confidence;
- scaling by the horizon;
- the exact domain in which the VaR index is in bounds;
- correlation symmetry;
- the ordering of the Monte Carlo figures;
- the value bookkeeping of `addPosition`.

Notes on what the code does:
- **Variance.** The volatility uses the population variance (dividing by n), not
  the sample variance.
- **No validation.** The code validates neither the confidence nor the horizon
  nor the number of simulations. It has no error results, only the
  runtime exceptions that the model turns into preconditions: an empty
  return map (line 498), a symbol without a series (null from line 463,
  failing at line 516), an index out of range, and a negative array size. The exact
  crash-free confidence domain is `0 < c < 1 + 1/L`, so the code also accepts
  confidence 1 (lemma `HistoricalVaR.VaRIndexInBounds`).
- **Percentile index.** The Monte Carlo percentile index is not clamped. It
  never needs to be, because it is in bounds for every `numSims ≥ 1`
  (`MonteCarlo.PercentileIndex`).
- **Weight alignment.** The weights are aligned with the iteration order of
  the return map, not with an explicit symbol order.

## Model

| member | source | states |
|---|---|---|
| Aggregation.CalculatePortfolioReturns | src/main/java/com/quantrisk/QuantRiskCLI.java:497-512 | the result has the first series' length and day t is the sum over the symbols, in map order, of return times the weight at the same position |
| Aggregation.WeightedReturnOfUniformDay | src/main/java/com/quantrisk/QuantRiskCLI.java:502-508 | when every asset returns c on a day, the portfolio return is c times the sum of the weights used (weights are not normalised) |
| Aggregation.Lookup | src/main/java/com/quantrisk/QuantRiskCLI.java:462-463 | `returns.get(symbol)` is present exactly when the symbol is a key, and is that symbol's series |
| Sorting.SortInPlace | src/main/java/com/quantrisk/QuantRiskCLI.java:381-382 | after `Arrays.sort` the array holds the unique ascending permutation of its old contents |
| Sorting.OrderedPermutationUnique | src/main/java/com/quantrisk/QuantRiskCLI.java:486 | two ascending arrangements of the same values are equal, so the sort algorithm cannot be observed |
| Numerics.TruncateToInt | src/main/java/com/quantrisk/QuantRiskCLI.java:385 | the `(int)` cast rounds toward zero: the result lies within one of x, on x's side of zero |
| Numerics.TruncateInRange | src/main/java/com/quantrisk/QuantRiskCLI.java:385-386 | a truncated index lies in [0, len) exactly when the value lies in (-1, len) |
| Numerics.Percentage | src/main/java/com/quantrisk/QuantRiskCLI.java:449 | `part / whole * 100` is finite exactly when whole is non-zero, and then it times whole is 100 times part |
| Numerics.PopulationVarianceNonNegative | src/main/java/com/quantrisk/QuantRiskCLI.java:397-401 | the variance under the volatility root is never negative |
| Numerics.PopulationVarianceOfConstant | src/main/java/com/quantrisk/QuantRiskCLI.java:397-400 | a constant series has zero variance |
| Numerics.MeanBounds | src/main/java/com/quantrisk/QuantRiskCLI.java:397 | the average of values within [lo, hi] lies within [lo, hi] |
| HistoricalVaR.VaRResult.VaRPercentage | src/main/java/com/quantrisk/QuantRiskCLI.java:588 | VaR as a percentage of the portfolio value; non-finite exactly when the value is 0 |
| HistoricalVaR.VaRIndexInBounds | src/main/java/com/quantrisk/QuantRiskCLI.java:385-386 | the VaR index is inside a series of length L exactly when 0 < confidence < 1 + 1/L, so for every confidence in (0, 1) |
| HistoricalVaR.VaRIndexAntitone | src/main/java/com/quantrisk/QuantRiskCLI.java:385 | a higher confidence never gives a larger VaR index |
| HistoricalVaR.CalculatePortfolioVaR | src/main/java/com/quantrisk/QuantRiskCLI.java:375-404 | the result is VaR = -(sorted return at the index) × value × √days, ES = -(mean of the sorted returns up to the index) × value × √days, and volatility = √(252 × population variance) of the aggregated series |
| HistoricalVaR.TailSum | src/main/java/com/quantrisk/QuantRiskCLI.java:390-393 | the Expected Shortfall loop sums the ascending returns up to and including the VaR index |
| HistoricalVaR.VaRMonotoneInConfidence | src/main/java/com/quantrisk/QuantRiskCLI.java:385-387 | with non-negative value and horizon factor, VaR does not decrease as the confidence rises |
| HistoricalVaR.ExpectedShortfallAtLeastVaR | src/main/java/com/quantrisk/QuantRiskCLI.java:385-394 | Expected Shortfall is at least VaR (non-negative value and horizon factor) |
| HistoricalVaR.HorizonScaling | src/main/java/com/quantrisk/QuantRiskCLI.java:387-394 | VaR and ES for two horizons differ exactly by the ratio of their square-root factors |
| HistoricalVaR.ConstantReturns | src/main/java/com/quantrisk/QuantRiskCLI.java:385-401 | a constant return c gives VaR = ES = -c × value × √days and volatility √0 |
| HistoricalVaR.UniformAssetsGiveConstantPortfolio | src/main/java/com/quantrisk/QuantRiskCLI.java:502-508 | equal asset returns c and weights summing to 1 give the portfolio return c every day |
| HistoricalVaR.ConstantPortfolioExample | src/main/java/com/quantrisk/QuantRiskCLI.java:375-404 | two assets at -1% for 100 days, weights 0.5/0.5, value 1,000,000, 95%, one day: VaR = ES = 10,000 |
| StressTest.ApplyStressShocks | src/main/java/com/quantrisk/QuantRiskCLI.java:432-451 | loss is minus the sum of value × shock / n (default shock -20%), the loss percentage is relative to the value, the worst asset and its shock × 100 are from a strict running maximum of absolute shock |
| StressTest.UniformShockLoss | src/main/java/com/quantrisk/QuantRiskCLI.java:438-441 | a uniform shock c loses exactly -c × value, for any non-zero number of symbols |
| StressTest.EmptyTableLoss | src/main/java/com/quantrisk/QuantRiskCLI.java:439 | with at least one symbol and none tabled, the loss is 20% of the value |
| StressTest.WorstIsFirstLargest | src/main/java/com/quantrisk/QuantRiskCLI.java:443-446 | the worst asset has the largest absolute shock and is the first such symbol; with only zero shocks none is reported |
| StressTest.UniformShockWorst | src/main/java/com/quantrisk/QuantRiskCLI.java:443-446 | a non-zero uniform shock names the first symbol |
| StressTest.CustomStressTest | src/main/java/com/quantrisk/QuantRiskCLI.java:424-430 | the result is the stress outcome under the table mapping every listed symbol to the shock; hence loss is -shock × value for a non-empty list (0 for an empty one), the loss percentage is loss / value × 100, and the worst asset is the first symbol unless the shock is 0 |
| StressTest.Stress2008Crisis | src/main/java/com/quantrisk/QuantRiskCLI.java:406-413 | the outcome under the 2008 shock table, scenario "2008 Financial Crisis" |
| StressTest.StressCovid2020 | src/main/java/com/quantrisk/QuantRiskCLI.java:415-422 | the outcome under the COVID-2020 shock table, scenario "COVID-19 Crash" |
| StressTest.Crisis2008WorstAsset | src/main/java/com/quantrisk/QuantRiskCLI.java:408-411 | with the six tabled symbols, GOOGL at -65% is the worst asset in 2008 |
| StressTest.CovidDefaultShockWins | src/main/java/com/quantrisk/QuantRiskCLI.java:417-420 | an untabled symbol's default -20% beats AAPL's -17% in the COVID scenario |
| Correlation.CalculateCorrelation | src/main/java/com/quantrisk/QuantRiskCLI.java:514-530 | the five running sums give the sum-based Pearson value over the common prefix, 0 when the root is 0 |
| Correlation.PearsonSymmetric | src/main/java/com/quantrisk/QuantRiskCLI.java:526-529 | correlation of x with y equals that of y with x |
| Correlation.PearsonUsesCommonPrefix | src/main/java/com/quantrisk/QuantRiskCLI.java:516 | only the first min(length of x, length of y) entries of either series matter |
| Correlation.PearsonOfConstant | src/main/java/com/quantrisk/QuantRiskCLI.java:527-529 | a series constant over the common prefix correlates 0 with anything |
| Correlation.CorrelationMatrixSymmetric | src/main/java/com/quantrisk/QuantRiskCLI.java:457-466 | the matrix has a unit diagonal and is symmetric |
| Correlation.CalculateCorrelationMatrix | src/main/java/com/quantrisk/QuantRiskCLI.java:453-469 | a fresh n × n matrix whose entry (i, j) is 1 on the diagonal and the correlation of the two symbols' series elsewhere |
| MonteCarlo.PercentileIndex | src/main/java/com/quantrisk/QuantRiskCLI.java:488-489 | `(int)(p × n)` is inside n outcomes for every fraction p in [0, 1) |
| MonteCarlo.PercentileIndexMonotone | src/main/java/com/quantrisk/QuantRiskCLI.java:488-489 | a smaller fraction never gives a larger index |
| MonteCarlo.RunMonteCarlo | src/main/java/com/quantrisk/QuantRiskCLI.java:471-495 | each outcome is the equal-weight average of draw × 0.02 times the value; the figures are read from the ascending outcomes at indices (int)(0.05n), (int)(0.01n), 0 and n-1, and the expected loss is minus their mean |
| MonteCarlo.SummaryOrdered | src/main/java/com/quantrisk/QuantRiskCLI.java:488-492 | worst case ≥ VaR99 ≥ VaR95 ≥ best case, and the expected loss lies between best and worst case |
| MonteCarlo.SingleSimulation | src/main/java/com/quantrisk/QuantRiskCLI.java:488-492 | with one simulation all five figures are that outcome's loss |
| MonteCarlo.UniformDrawOutcome | src/main/java/com/quantrisk/QuantRiskCLI.java:478-483 | equal draws g give the outcome g × 0.02 × value for any non-zero number of symbols |
| MonteCarlo.NoSymbolsNoRisk | src/main/java/com/quantrisk/QuantRiskCLI.java:476-492 | with no symbols every figure is 0 |
| Portfolios.Portfolio.constructor | src/main/java/com/quantrisk/QuantRiskCLI.java:645-647 | a new portfolio has three empty maps |
| Portfolios.Portfolio.AddPosition | src/main/java/com/quantrisk/QuantRiskCLI.java:649-653 | puts the symbol into all three maps, keeps them on one key set, appends only a new symbol to the order, and changes the total value by new minus replaced position value |
| Portfolios.Portfolio.Symbols | src/main/java/com/quantrisk/QuantRiskCLI.java:655 | every position's symbol exactly once |
| Portfolios.Portfolio.Weights | src/main/java/com/quantrisk/QuantRiskCLI.java:657-659 | entry i is the weight of the i-th symbol of getSymbols |
| Portfolios.ValueSumOverwrite | src/main/java/com/quantrisk/QuantRiskCLI.java:661-665 | re-pricing a held symbol replaces its value in the total |
| Portfolios.ValueSumInsert | src/main/java/com/quantrisk/QuantRiskCLI.java:661-665 | adding a new symbol adds its price × quantity to the total |
| Portfolios.PutKeepsPositions | src/main/java/com/quantrisk/QuantRiskCLI.java:649-653 | a put into all three maps keeps distinct symbols and one shared key set |
| Portfolios.Portfolio.TotalValue | src/main/java/com/quantrisk/QuantRiskCLI.java:661-665 | the sum of price × quantity over the positions: 0 with no positions, non-negative when every price and quantity is |
| Portfolios.Portfolio.TotalValueAnyOrder | src/main/java/com/quantrisk/QuantRiskCLI.java:661-665 | streaming the price entries in any order, each symbol once, gives the same total |
| Portfolios.ValueSumPermutation | src/main/java/com/quantrisk/QuantRiskCLI.java:661-665 | two duplicate-free listings of the same symbols have the same sum of position values |
| Portfolios.ValueSumRemove | src/main/java/com/quantrisk/QuantRiskCLI.java:661-665 | taking a position out of the listing, wherever it stands, takes exactly its value out of the sum |
| Portfolios.ValueSumNonNegative | src/main/java/com/quantrisk/QuantRiskCLI.java:661-665 | non-negative prices and quantities give a non-negative sum |
| Portfolios.KeySetMembers | src/main/java/com/quantrisk/QuantRiskCLI.java:655 | the key set of the iteration order holds exactly its symbols |

## Left out

- Console I/O, argument parsing, report formatting, file loading and the market-data fetcher are not part of this model.
- The `executor` thread pool (line 373) is never used by the engine and is not modelled.
- Random number generation: the Gaussian draws of `runMonteCarlo` are an input `draws[i][k]`. The model says nothing about their distribution.
- Math.sqrt is the parameter `sqrt`. Lemmas that need its value add a hypothesis such as `sqrt(0) == 0` or `sqrt(days) >= 0`.
- IEEE 754 doubles are exact reals: no rounding, overflow, NaN or infinity. A division by a zero portfolio value (NaN or Infinity in Java) is `Quotient.NonFinite`. The other divisions are by lengths that are positive wherever they are evaluated, and the correlation's division by its root, which is guarded against 0 (line 529).
- Java `int` is unbounded. A saturating `(int)` cast of a huge double, and a `numSims` or `days` outside 32 bits, are not represented.
- `HistoricalVaR.CalculatePortfolioVaR`: `Math.pow(r - mean, 2)` is modelled as `(r - mean) * (r - mean)`. `-sum / (k + 1) * value` is modelled as `-(sum / (k + 1)) * value`, which is equal in exact arithmetic. The two stream averages are the functions `Mean` and `PopulationVariance`, not step-by-step loops.
- `HistoricalVaR.CalculatePortfolioVaR`, `Aggregation.CalculatePortfolioReturns`, `MonteCarlo.RunMonteCarlo` and `Correlation.CalculateCorrelationMatrix` have preconditions where the code would throw. The failures are an empty map, a missing weight or a short series, an out-of-range VaR index, `numSims < 1`, and a symbol without a series. The code has no error path of its own for these.
- Java `HashMap` iteration order is unspecified:
  - the return map is an explicit sequence of distinct (symbol, series) entries;
  - the `Portfolio` maps iterate in insertion order (field `order`).

  The price stream of `getTotalValue` and the weight stream of `getWeights` iterate that same order. This does not affect the total, because it is the same for every order (`Portfolios.Portfolio.TotalValueAnyOrder`).
- `Portfolios.Portfolio.Weights`: the weights are not normalised, and nothing checks that they sum to 1. `Aggregation.WeightedReturnOfUniformDay` shows the effect.
- `Portfolios.Portfolio.TotalValue`: `quantities.get` (line 663) returning null, which would be an unboxing failure, cannot happen, because the three maps always share their keys. The model states this as the invariant `Valid()`.

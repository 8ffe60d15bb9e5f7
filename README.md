# Trading platform backtesting core, in Dafny

This project models the Python backtesting stack of a trading platform and
proves properties of the model. It covers:

- the strategy base records (signals, trades, the common strategy attributes);
- the technical-indicator library (SMA, EMA, RSI, MACD, Bollinger bands,
  VWAP, true range/ATR, stochastic %K/%D);
- the three stateless strategies of the registry (SMA crossover, RSI mean
  reversion, MACD trend follow);
- the five stateful intraday strategies (opening-range breakout, intraday
  mean reversion, VWAP reversion, morning momentum, sector momentum);
- the strategy registry;
- the backtest engine and its report;
- the keyword sentiment scorer and the signal generation of the news
  forward tester;
- the timeframe-string parser of the data fetcher.

Modelling choices:

- Prices, cash and ratios are `real`. A pandas NaN (the warm-up of a
  rolling window, or 0/0) is `None` in an `Option<real>`. Every ordered
  comparison with `None` is false, as with IEEE NaN.
- A parameter dictionary is a `map<string, real>`. A Python bool parameter
  is 0 or 1, truthy iff non-zero.
- Reason strings are a `Reason` enumeration. A strategy description is a
  template together with the numbers formatted into it.
- Where the source mutates fields across calls, the model is a class:
  - the backtest engine;
  - each intraday strategy.

  Each method is proved against a pure step function (`AfterBuy`,
  `AfterSell`, `Apply`, `Simulate`, `Step`). The lemmas state the
  properties of those functions.
- `generate_signals` is a method with a grouping loop. It is proved equal
  to the specification function `NewsSignals`, whose sorting, counting and
  distinctness properties are lemmas.
- The backtest engine takes the strategy's signals as a sequence, one per
  bar. The strategy sees only the bars, never the engine's state, so its
  signal for bar i does not depend on anything the engine does.
- The sentiment model is a parameter. `AnalyzeSentiment` receives the
  model's (label, score) output, or nothing when no model is loaded.
  `GenerateSignals` receives the scorer as a function.

Files, one module each:

| file | module |
|---|---|
| `wrappers.dfy` | `Wrappers` (Option, Result) |
| `series.dfy` | `Series` (sum, mean, extrema, Python slicing) |
| `base.dfy` | `Base` (`strategies/base.py` plus shared helpers) |
| `indicators.dfy` | `Indicators` (`indicators/technical.py`) |
| `sma_crossover.dfy`, `rsi_mean_revert.dfy`, `macd_trend_follow.dfy` | `SmaCrossover`, `RsiMeanRevert`, `MacdTrendFollow` |
| `opening_range_breakout.dfy`, `mean_reversion_intraday.dfy`, `vwap_reversion.dfy`, `morning_momentum.dfy`, `sector_momentum.dfy` | one module per intraday strategy |
| `registry.dfy` | `Registry` (`strategies/__init__.py`) |
| `backtest.dfy` | `Backtest` (`app/backtest.py`) |
| `news_forward_tester.dfy` | `NewsForwardTester` |
| `data_fetcher.dfy` | `DataFetcher` (`_parse_timeframe`) |

## Model

| member | source | states |
|---|---|---|
| Base.NewSignal | python_backend/strategies/base.py:12-19 | a signal built from timestamp, action, confidence and reason has `price` and `quantity` None |
| Base.NewTrade | python_backend/strategies/base.py:22-32 | an opened trade has exit time, exit price, pnl and pnl_pct None and the given entry fields |
| Base.NewStrategyInfo | python_backend/strategies/base.py:38-48 | None or empty parameters become an empty dict; the name is the class name; the description is the docstring, or "Trading strategy" without one |
| Base.GetInfo | python_backend/strategies/base.py:68-79 | the info dictionary has exactly the keys name, description and parameters, holding the strategy's attributes |
| Base.DefaultValidate | python_backend/strategies/base.py:81-92 | the default validator accepts every parameter dictionary |
| Base.RecentVolumeRatio | python_backend/strategies/opening_range_breakout.py:87-88 | ratio × (mean of up to 20 preceding volumes) = bar volume when that mean is positive, and 1 otherwise |
| Indicators.SmaIsWindowMean | python_backend/indicators/technical.py:10-12 | the SMA at i is undefined iff i < period−1, and otherwise is the mean of data[i−period+1..i] |
| Indicators.SmaWithinWindow | python_backend/indicators/technical.py:10-12 | a full-window SMA lies between the window's minimum and maximum |
| Indicators.SmaNoLookAhead | python_backend/indicators/technical.py:10-12 | the SMA at i is the same for any two series that agree up to i |
| Indicators.SmaPositive | python_backend/indicators/technical.py:10-12 | over positive data a defined SMA is positive |
| Indicators.SmaOfConstant | python_backend/indicators/technical.py:10-12 | over a flat series a full-window SMA equals the flat value |
| Indicators.Alpha | python_backend/indicators/technical.py:15-17 | for any real span ≥ 1, the smoothing factor 2/(span+1) lies in (0, 1] |
| Indicators.EmaWithin | python_backend/indicators/technical.py:15-17 | the EMA at i (seeded with x[0], then α·x[i] + (1−α)·ema[i−1]) lies within any bounds of x[0..i] |
| Indicators.EmaNoLookAhead | python_backend/indicators/technical.py:15-17 | the EMA at i is the same for any two series that agree up to i |
| Indicators.Gains | python_backend/indicators/technical.py:31-32 | the gain at i is the positive part of the first difference, and 0 at index 0 |
| Indicators.Losses | python_backend/indicators/technical.py:31-33 | the loss at i is the negated negative part of the first difference, and 0 at index 0 |
| Indicators.AveragesNonNegative | python_backend/indicators/technical.py:32-33 | the averaged gain and loss are non-negative |
| Indicators.RsiAt | python_backend/indicators/technical.py:31-37 | the RSI is undefined iff the window is not yet full or the average gain and loss are both 0 |
| Indicators.RsiRange | python_backend/indicators/technical.py:35-36 | a defined RSI lies in [0,100]; it is 100 iff the average loss is 0; otherwise RSI·(gain+loss) = 100·gain |
| Indicators.RsiFormula | python_backend/indicators/technical.py:35-36 | with a positive average loss, 100 − 100/(1+g/l) lies in [0,100) and equals 100·g/(g+l) |
| Indicators.RsiNoLookAhead | python_backend/indicators/technical.py:31-37 | the RSI at i is the same for any two series that agree up to i |
| Indicators.RsiOfConstant | python_backend/indicators/technical.py:31-37 | a flat series has an RSI that is undefined everywhere (0/0) |
| Indicators.MacdLine | python_backend/indicators/technical.py:58-60 | the MACD line at i is EMA_fast − EMA_slow |
| Indicators.MacdAt | python_backend/indicators/technical.py:58-64 | line = fast EMA − slow EMA, signal = EMA of the line, histogram = line − signal |
| Indicators.MacdOfConstant | python_backend/indicators/technical.py:58-64 | on a flat series the line, signal and histogram are all 0 |
| Indicators.MacdNoLookAhead | python_backend/indicators/technical.py:58-64 | the MACD triple at i is the same for any two series that agree up to i |
| Indicators.BollingerAt | python_backend/indicators/technical.py:83-88 | middle = SMA; upper − middle = middle − lower = k·std; the bands are defined iff the SMA and std are; lower ≤ middle ≤ upper when k ≥ 0 |
| Indicators.WeightedSumWithin | python_backend/indicators/technical.py:101-102 | with non-negative volumes the cumulative price·volume lies between lo·ΣV and hi·ΣV for any bounds of the typical prices |
| Indicators.PriceVolumePositive | python_backend/indicators/technical.py:101-102 | over positive bars, cumulative price·volume is positive once any volume has traded |
| Indicators.VwapPositive | python_backend/indicators/technical.py:101-103 | over positive bars a defined VWAP is positive |
| Indicators.VwapWithinTypicalRange | python_backend/indicators/technical.py:101-103 | with non-negative volumes a defined VWAP lies between the smallest and largest typical price (h+l+c)/3 so far |
| Indicators.CumulativeNoLookAhead | python_backend/indicators/technical.py:102 | cumulative volume and price·volume over the first n bars depend on those bars only |
| Indicators.VwapNoLookAhead | python_backend/indicators/technical.py:101-103 | the VWAP at i is the same for any two bar sequences that agree up to i |
| Indicators.TrueRangeAt | python_backend/indicators/technical.py:117-121 | the true range is the largest of h−l, \|h−prevC\| and \|l−prevC\| (so ≥ h−l), and h−l at bar 0 |
| Indicators.TrueRanges | python_backend/indicators/technical.py:117-121 | the true-range column has one entry per bar, each the bar's true range |
| Indicators.AtrAtLeastRange | python_backend/indicators/technical.py:122 | a full-window ATR is defined and at least any lower bound of the window's h−l |
| Indicators.StochasticK | python_backend/indicators/technical.py:143-146 | the %K column has one entry per bar, each %K at that bar |
| Indicators.RollingMeanWithin | python_backend/indicators/technical.py:147 | a defined rolling mean lies within any bounds of the defined values in its window |
| Indicators.PercentWithin | python_backend/indicators/technical.py:146 | 100·(c−LL)/(HH−LL) lies in [0,100] when LL ≤ c ≤ HH and HH ≠ LL |
| Indicators.StochasticKRange | python_backend/indicators/technical.py:143-146 | a defined %K lies in [0,100] when the bar's close is within its low and high |
| Indicators.StochasticDRange | python_backend/indicators/technical.py:147 | a defined %D, the rolling mean of %K, lies in [0,100] when every close is within its bar |
| SmaCrossover.FromParams | python_backend/strategies/sma_crossover.py:16-20 | with no parameters the periods are 10 and 30 |
| SmaCrossover.Description | python_backend/strategies/sma_crossover.py:21 | the description formats the short and long period |
| SmaCrossover.Analyze | python_backend/strategies/sma_crossover.py:35-83 | hold with confidence 0 while index < long period; buy iff prev short ≤ prev long and cur short > cur long; sell iff prev short ≥ prev long and cur short < cur long; hold has confidence 0; confidence ≤ 1 |
| SmaCrossover.ConfidenceInUnit | python_backend/strategies/sma_crossover.py:57-68 | over positive prices the confidence min(\|cs−cl\|/cl, 1) lies in [0,1], and is positive on a buy or sell |
| SmaCrossover.AveragesNoLookAhead | python_backend/strategies/sma_crossover.py:45-52 | the short and long SMA at i are the same for any two bar sequences that agree up to i |
| SmaCrossover.NoLookAhead | python_backend/strategies/sma_crossover.py:45-52 | the signal at index is the same for any two bar sequences that agree up to index |
| SmaCrossover.NoConsecutiveBuys | python_backend/strategies/sma_crossover.py:56 | a buy at index is never followed by a buy at index+1 |
| SmaCrossover.FlatMarketHolds | python_backend/strategies/sma_crossover.py:56-83 | on flat closes the strategy always holds |
| SmaCrossover.Validate | python_backend/strategies/sma_crossover.py:86-96 | accepted iff 2 ≤ short < long (defaults 10/30); short ≥ long is reported first |
| RsiMeanRevert.FromParams | python_backend/strategies/rsi_mean_revert.py:16-20 | with no parameters period, oversold, overbought are 14, 30, 70 |
| RsiMeanRevert.Description | python_backend/strategies/rsi_mean_revert.py:21 | the description formats the period, oversold and overbought levels |
| RsiMeanRevert.RsiOf | python_backend/strategies/rsi_mean_revert.py:44-50 | the RSI the strategy reads is undefined or lies in [0,100] |
| RsiMeanRevert.Decide | python_backend/strategies/rsi_mean_revert.py:52-79 | buy iff prev ≤ oversold < cur; sell iff not a buy and cur > overbought (a level test); hold with confidence 0 otherwise; trade confidence in (0,1]; 0.5 when prev = oversold |
| RsiMeanRevert.PositiveShare | python_backend/strategies/rsi_mean_revert.py:54-65 | the confidence ratio is positive and times its denominator gives its numerator |
| RsiMeanRevert.Analyze | python_backend/strategies/rsi_mean_revert.py:35-79 | hold while index < period+1; afterwards the decision on the RSI at index−1 and index |
| RsiMeanRevert.NoLookAhead | python_backend/strategies/rsi_mean_revert.py:44-50 | the signal at index is the same for any two bar sequences that agree up to index |
| RsiMeanRevert.FlatMarketHolds | python_backend/strategies/rsi_mean_revert.py:52-79 | on flat closes (RSI undefined) the strategy holds past the warm-up |
| RsiMeanRevert.Validate | python_backend/strategies/rsi_mean_revert.py:82-95 | accepted iff period ≥ 2 and 0 ≤ oversold < overbought ≤ 100; a short period is reported first |
| MacdTrendFollow.FromParams | python_backend/strategies/macd_trend_follow.py:16-20 | with no parameters the periods are 12, 26, 9 |
| MacdTrendFollow.Description | python_backend/strategies/macd_trend_follow.py:21 | the description formats the three periods |
| MacdTrendFollow.CrossConfidence | python_backend/strategies/macd_trend_follow.py:62-73 | min(\|hist\|/\|macd\|, 1), or 0.5 when macd = 0, lies in [0,1] and is positive when both are non-zero |
| MacdTrendFollow.TrendOf | python_backend/strategies/macd_trend_follow.py:83-96 | bullish iff hist > 0 and macd > 0, bearish iff both < 0, neutral otherwise |
| MacdTrendFollow.Decide | python_backend/strategies/macd_trend_follow.py:61-96 | buy iff prev macd ≤ prev signal and cur macd > cur signal; sell iff the mirror; crossover confidence in (0,1]; otherwise hold with confidence 0 and the trend reason |
| MacdTrendFollow.Analyze | python_backend/strategies/macd_trend_follow.py:35-96 | hold while index < slow + signal period; afterwards the decision on the MACD at index−1 and index |
| MacdTrendFollow.NoLookAhead | python_backend/strategies/macd_trend_follow.py:45-58 | the signal at index is the same for any two bar sequences that agree up to index |
| MacdTrendFollow.FlatMarketHolds | python_backend/strategies/macd_trend_follow.py:83-96 | on flat closes the strategy holds with the neutral reason past the warm-up |
| MacdTrendFollow.Validate | python_backend/strategies/macd_trend_follow.py:99-110 | accepted iff fast < slow and fast, signal ≥ 2 (so slow too); fast ≥ slow is reported first |
| OpeningRangeBreakout.FromParams | python_backend/strategies/opening_range_breakout.py:20-24 | the defaults are 30, True, 1.5, 1.5, 3.0 |
| OpeningRangeBreakout.Description | python_backend/strategies/opening_range_breakout.py:25 | the description formats the range period |
| OpeningRangeBreakout.RangeHigh | python_backend/strategies/opening_range_breakout.py:63-81 | the highest high of the first n bars: an upper bound attained by one of them |
| OpeningRangeBreakout.RangeLow | python_backend/strategies/opening_range_breakout.py:64-82 | the lowest low of the first n bars: a lower bound attained by one of them |
| OpeningRangeBreakout.EntryConfidence | python_backend/strategies/opening_range_breakout.py:101 | min(0.6 + ratio/(2·thr)·0.4, 1) is at most 1, and at least 0.6 for a positive threshold |
| OpeningRangeBreakout.OpeningRangeBreakoutStrategy.constructor | python_backend/strategies/opening_range_breakout.py:18-32 | the settings are read from the parameters, and the state starts with no range, flat, no entry price |
| OpeningRangeBreakout.OpeningRangeBreakoutStrategy.Analyze | python_backend/strategies/opening_range_breakout.py:34-161 | the new state and the signal are those of `Step` on the old state |
| OpeningRangeBreakout.StepConsistent | python_backend/strategies/opening_range_breakout.py:97-145 | position_open ⇔ entry_price is set, preserved by every call |
| OpeningRangeBreakout.StepFollows | python_backend/strategies/opening_range_breakout.py:91-152 | a buy opens a flat position, a sell closes an open one, a hold leaves it |
| OpeningRangeBreakout.BuyRecordsEntry | python_backend/strategies/opening_range_breakout.py:91-112 | a step buys iff the strategy is flat, index ≥ 2 and ≥ range_period, and the close breaks the fixed range high with volume confirmation; the buy records entry_price = close, confidence EntryConfidence(volume ratio) and the breakout reason |
| OpeningRangeBreakout.OpenStepExits | python_backend/strategies/opening_range_breakout.py:80-115 | past the opening period, a step on an open, consistent position is the exit step on the fixed range, so ExitOrder applies to `analyze` |
| OpeningRangeBreakout.WarmUpKeepsState | python_backend/strategies/opening_range_breakout.py:46-53 | for index < 2 it holds and changes no state |
| OpeningRangeBreakout.OpeningRangeEnvelope | python_backend/strategies/opening_range_breakout.py:60-77 | within the range period the tracked high/low envelope bars 0..index, are attained, and the signal is hold |
| OpeningRangeBreakout.RangeFixedOnce | python_backend/strategies/opening_range_breakout.py:80-84 | past the range period the range is set; a first set fixes it from bars 0..range_period−1, a set range is kept |
| OpeningRangeBreakout.SetRangeNeverChanges | python_backend/strategies/opening_range_breakout.py:60-84 | once set, the range is never recomputed |
| OpeningRangeBreakout.ExitOrder | python_backend/strategies/opening_range_breakout.py:115-152 | open exits in order: stop-loss (0.9), take-profit (0.9), last three bars (0.8), else hold |
| OpeningRangeBreakout.Trace | python_backend/strategies/opening_range_breakout.py:34-161 | the states of successive calls on bars 0..n−1 |
| OpeningRangeBreakout.RunAlternates | python_backend/strategies/opening_range_breakout.py:91-152 | from a fresh strategy buys and sells alternate, the first trade is a buy, and it ends open iff the last trade was a buy |
| OpeningRangeBreakout.Validate | python_backend/strategies/opening_range_breakout.py:163-176 | accepted iff range period, stop-loss and take-profit are positive, checked in that order |
| MeanReversionIntraday.FromParams | python_backend/strategies/mean_reversion_intraday.py:19-25 | the defaults are 5, 25, 50, 20, 2.0, 2.0, 1.5 |
| MeanReversionIntraday.Description | python_backend/strategies/mean_reversion_intraday.py:26 | the description formats the RSI period and oversold level |
| MeanReversionIntraday.ReadingsAt | python_backend/strategies/mean_reversion_intraday.py:55-64 | the RSI read is undefined or in [0,100]; the middle band is the SMA of the closes |
| MeanReversionIntraday.EntryConfidence | python_backend/strategies/mean_reversion_intraday.py:74-86 | min(0.5 + (oversold−rsi)/oversold·0.5, 1) lies in (0.5,1]; a close ≤ lower·1.01 gives at least 0.7 |
| MeanReversionIntraday.MeanReversionIntradayStrategy.constructor | python_backend/strategies/mean_reversion_intraday.py:17-30 | the settings are read from the parameters, and the state starts flat with no entry price |
| MeanReversionIntraday.MeanReversionIntradayStrategy.Analyze | python_backend/strategies/mean_reversion_intraday.py:32-168 | the new state and the signal are those of `Step` on the old state and the bar's readings |
| MeanReversionIntraday.StepConsistent | python_backend/strategies/mean_reversion_intraday.py:102-168 | position_open ⇔ entry_price is set, preserved by every call |
| MeanReversionIntraday.StepFollows | python_backend/strategies/mean_reversion_intraday.py:70-168 | buy opens, sell closes, hold keeps the position flag |
| MeanReversionIntraday.EntryOnOversold | python_backend/strategies/mean_reversion_intraday.py:70-94 | past the warm-up a flat strategy buys iff RSI < oversold, recording entry = close, confidence in (0.5,1]; the band affects only confidence |
| MeanReversionIntraday.ExitOrder | python_backend/strategies/mean_reversion_intraday.py:101-160 | open exits in order: RSI ≥ target, close ≥ middle band, take-profit, stop-loss, last three bars; every exit goes flat |
| MeanReversionIntraday.OpenStepExits | python_backend/strategies/mean_reversion_intraday.py:44-97 | after the warm-up, a step on an open, consistent position is the exit step, so ExitOrder applies to `analyze` |
| MeanReversionIntraday.Trace | python_backend/strategies/mean_reversion_intraday.py:32-168 | the states of successive calls on bars 0..n−1 |
| MeanReversionIntraday.RunAlternates | python_backend/strategies/mean_reversion_intraday.py:70-168 | from a fresh strategy buys and sells alternate, starting with a buy; it ends open iff the last trade was a buy |
| MeanReversionIntraday.Validate | python_backend/strategies/mean_reversion_intraday.py:171-186 | accepted iff rsi_period ≥ 2 and 0 ≤ oversold < target ≤ 100; a short period is reported first |
| VwapReversion.FromParams | python_backend/strategies/vwap_reversion.py:20-24 | the defaults are 20, 50, 0.5, 1.0, 1.5 |
| VwapReversion.Description | python_backend/strategies/vwap_reversion.py:25 | the description formats the two EMA periods |
| VwapReversion.ReadingsAt | python_backend/strategies/vwap_reversion.py:56-64 | the VWAP is computed over bars 0..index and the EMAs of the closes are read at index |
| VwapReversion.Deviation | python_backend/strategies/vwap_reversion.py:71 | the deviation is defined iff the VWAP is, and negative iff close < VWAP |
| VwapReversion.EntryConfidence | python_backend/strategies/vwap_reversion.py:84 | min(0.5 + \|dev\|/(2·thr)·0.5, 1) is at most 1, above 0.75 for a positive threshold |
| VwapReversion.VWAPReversionStrategy.constructor | python_backend/strategies/vwap_reversion.py:18-29 | the settings are read from the parameters, and the state starts flat with no entry price |
| VwapReversion.VWAPReversionStrategy.Analyze | python_backend/strategies/vwap_reversion.py:31-158 | the new state and the signal are those of `Step` on the old state and the bar's readings |
| VwapReversion.StepConsistent | python_backend/strategies/vwap_reversion.py:101-148 | position_open ⇔ entry_price is set, preserved by every call |
| VwapReversion.StepFollows | python_backend/strategies/vwap_reversion.py:77-148 | buy opens, sell closes, hold keeps the position flag |
| VwapReversion.LongOnlyEntry | python_backend/strategies/vwap_reversion.py:77-94 | a flat strategy buys iff EMA_fast > EMA_slow and deviation < −threshold, never sells (no short entry), and buys below the VWAP |
| VwapReversion.ExitOrder | python_backend/strategies/vwap_reversion.py:101-148 | open exits in order: close ≥ VWAP, stop-loss, take-profit, last three bars; every exit goes flat |
| VwapReversion.OpenStepExits | python_backend/strategies/vwap_reversion.py:43-97 | after the warm-up, a step on an open, consistent position is the exit step, so ExitOrder applies to `analyze` |
| VwapReversion.Trace | python_backend/strategies/vwap_reversion.py:31-158 | the states of successive calls on bars 0..n−1 |
| VwapReversion.RunAlternates | python_backend/strategies/vwap_reversion.py:77-148 | from a fresh strategy buys and sells alternate, starting with a buy |
| VwapReversion.Validate | python_backend/strategies/vwap_reversion.py:160-175 | accepted iff 2 ≤ fast < slow and deviation > 0; a short fast period is reported first |
| MorningMomentum.FromParams | python_backend/strategies/morning_momentum.py:20-25 | the defaults are 2.0, 5, 70, 2.0, 20, 2.0 |
| MorningMomentum.Description | python_backend/strategies/morning_momentum.py:26 | the description formats gap, RSI maximum and volume ratio |
| MorningMomentum.GapPct | python_backend/strategies/morning_momentum.py:57 | gap·prev close = (open − prev close)·100, non-negative iff open ≥ prev close |
| MorningMomentum.VolumeRatio | python_backend/strategies/morning_momentum.py:64-65 | ratio·(mean of exactly volume_period preceding volumes) = volume when that mean > 0, and 0 otherwise |
| MorningMomentum.ReadingsAt | python_backend/strategies/morning_momentum.py:57-65 | the readings are the gap, the RSI of the closes at index and the volume ratio |
| MorningMomentum.EntryConfidence | python_backend/strategies/morning_momentum.py:80-84 | the entry confidence is at most 1, above 0.4 for positive thresholds |
| MorningMomentum.MorningMomentumStrategy.constructor | python_backend/strategies/morning_momentum.py:18-30 | the settings are read from the parameters, and the state starts flat with no highest price |
| MorningMomentum.MorningMomentumStrategy.Analyze | python_backend/strategies/morning_momentum.py:32-129 | hold with state unchanged while warming up; afterwards the new state and signal are those of `Step` |
| MorningMomentum.StepConsistent | python_backend/strategies/morning_momentum.py:76-120 | position_open ⇔ highest_price is set, preserved by every call |
| MorningMomentum.StepFollows | python_backend/strategies/morning_momentum.py:76-120 | buy opens, sell closes, hold keeps the position flag |
| MorningMomentum.EntryConditions | python_backend/strategies/morning_momentum.py:76-97 | a flat strategy buys iff gap ≥ threshold, RSI < rsi_max and ratio ≥ minimum, recording highest = close, confidence ≤ 1 |
| MorningMomentum.TrailingExit | python_backend/strategies/morning_momentum.py:100-120 | highest is raised to the close first; sell (0.8) iff close ≤ highest·(1−trail/100) or last three bars; hold keeps the raised highest |
| MorningMomentum.Trace | python_backend/strategies/morning_momentum.py:32-129 | the states of successive calls on bars 0..n−1 |
| MorningMomentum.RunAlternates | python_backend/strategies/morning_momentum.py:76-120 | from a fresh strategy buys and sells alternate, starting with a buy |
| MorningMomentum.RunTracksHighestClose | python_backend/strategies/morning_momentum.py:91-103 | while open, highest_price is the highest close since the entry bar, so it never decreases during a position |
| MorningMomentum.StepTracks | python_backend/strategies/morning_momentum.py:76-120 | one call keeps the run invariant: consistent state, and an open position holds the highest close since its entry bar |
| MorningMomentum.HoldRaisesHighest | python_backend/strategies/morning_momentum.py:101-103 | a call that keeps the position open extends the highest close to the current bar |
| MorningMomentum.Validate | python_backend/strategies/morning_momentum.py:131-147 | accepted iff gap > 0, rsi_period ≥ 2, rsi_max in [0,100] and ratio minimum > 0; the gap is checked first |
| SectorMomentum.FromParams | python_backend/strategies/sector_momentum.py:20-25 | the defaults are 14, 50, 75, 2.0, 20, 2.5 |
| SectorMomentum.Description | python_backend/strategies/sector_momentum.py:26 | the description formats the RSI band and surge threshold |
| SectorMomentum.LeadsSector | python_backend/strategies/sector_momentum.py:34-53 | false before bar 20; afterwards true iff the 20-bar return exceeds 3% |
| SectorMomentum.ReadingsAt | python_backend/strategies/sector_momentum.py:77-93 | the readings are the RSI and EMA of the closes at index, the volume ratio and the leadership test |
| SectorMomentum.EntryConfidence | python_backend/strategies/sector_momentum.py:109-113 | the entry confidence is at most 1, and at least 0.55 for a positive threshold |
| SectorMomentum.SectorMomentumStrategy.constructor | python_backend/strategies/sector_momentum.py:18-32 | the settings are read from the parameters, and the state starts flat, unselected |
| SectorMomentum.SectorMomentumStrategy.Analyze | python_backend/strategies/sector_momentum.py:55-198 | hold with state unchanged while warming up; afterwards the new state and signal are those of `Step` |
| SectorMomentum.StepConsistent | python_backend/strategies/sector_momentum.py:99-188 | position_open ⇔ entry_price set ⇔ highest_price set, preserved by every call |
| SectorMomentum.StepFollows | python_backend/strategies/sector_momentum.py:99-188 | buy opens, sell closes, hold keeps the position flag |
| SectorMomentum.SectorSelectedSticks | python_backend/strategies/sector_momentum.py:108-180 | sector_selected after a call iff it was set before or the call bought: exits never reset it |
| SectorMomentum.EntryConditions | python_backend/strategies/sector_momentum.py:99-122 | a flat strategy buys iff leadership, ratio ≥ threshold, rsi_min ≤ RSI ≤ rsi_max and close > EMA, recording entry = highest = close |
| SectorMomentum.ExitOrder | python_backend/strategies/sector_momentum.py:125-188 | highest is raised first; exits in order: trailing stop (0.9), close < EMA, RSI > 80, last three bars; every exit clears entry and highest |
| SectorMomentum.OpenStepExits | python_backend/strategies/sector_momentum.py:67-125 | after the warm-up, a step on an open, consistent position is the exit step, so ExitOrder applies to `analyze` |
| SectorMomentum.Trace | python_backend/strategies/sector_momentum.py:55-198 | the states of successive calls on bars 0..n−1 |
| SectorMomentum.RunAlternates | python_backend/strategies/sector_momentum.py:99-188 | from a fresh strategy buys and sells alternate, starting with a buy |
| SectorMomentum.RunSectorSelected | python_backend/strategies/sector_momentum.py:108 | after n calls sector_selected iff some call bought |
| SectorMomentum.RunTracksHighestClose | python_backend/strategies/sector_momentum.py:116-132 | while open, entry_price is the entry bar's close and highest_price the highest close since then |
| SectorMomentum.StepTracks | python_backend/strategies/sector_momentum.py:99-188 | one call keeps the run invariant: consistent state, and an open position holds its entry bar's close and the highest close since then |
| SectorMomentum.HoldRaisesHighest | python_backend/strategies/sector_momentum.py:131-132 | a call that keeps the position open extends the highest close to the current bar |
| SectorMomentum.Validate | python_backend/strategies/sector_momentum.py:200-218 | accepted iff rsi_period ≥ 2, 0 ≤ rsi_min < rsi_max ≤ 100 and surge > 0; a short period is reported first |
| Registry.Lookup | python_backend/strategies/__init__.py:29 | `STRATEGIES.get(id)`: None iff no entry has the id, otherwise the class registered under it |
| Registry.Construct | python_backend/strategies/__init__.py:33 | the instance has the class name, the given parameters, and the settings and description its `_initialize` derives from them |
| Registry.GetStrategy | python_backend/strategies/__init__.py:15-33 | fails with "Strategy '<id>' not found" iff the id is not one of the three; otherwise builds that class with `parameters or {}` |
| Registry.GetStrategyDoesNotValidate | python_backend/strategies/__init__.py:29-33 | parameters the SMA validator rejects are still accepted by the lookup |
| Registry.ListStrategies | python_backend/strategies/__init__.py:36-52 | one listing per registry entry in registry order, id = key, parameters empty |
| Registry.ListedIdsAreTheKnownOnes | python_backend/strategies/__init__.py:8-12 | the lookup succeeds exactly for the listed ids |
| Backtest.DefaultConfig | python_backend/app/backtest.py:14-22 | initial capital 10000, commission 0, empty parameters |
| Backtest.Trunc | python_backend/app/backtest.py:128 | Python `int()` of a real: the floor for non-negative values |
| Backtest.Shares | python_backend/app/backtest.py:128 | for non-negative cash, n·price ≤ capital < (n+1)·price |
| Backtest.AfterBuy | python_backend/app/backtest.py:124-145 | fills only if shares > 0 and shares·price·(1+c) ≤ capital; then capital drops by exactly that cost and stays ≥ 0, position = shares, the open trade is recorded and the trade log is unchanged; otherwise nothing changes |
| Backtest.Completed | python_backend/app/backtest.py:156-170 | the completed trade: exit at the bar's time and close, pnl = (exit−entry)·qty − 2·commission·qty·exit, pnl_pct·entry = (exit−entry)·100 |
| Backtest.AfterSell | python_backend/app/backtest.py:147-174 | with an open position: credit qty·price·(1−c), append the completed trade, go flat; otherwise nothing changes |
| Backtest.ApplyGates | python_backend/app/backtest.py:111-115 | the position grows only on a buy while flat, shrinks only to 0 on a sell while long, a hold changes nothing, and confidence plays no part |
| Backtest.RoundTripCash | python_backend/app/backtest.py:131-157 | over a buy and a sell the cash changes by the logged pnl plus c·qty·(exit−entry) |
| Backtest.Drawdown | python_backend/app/backtest.py:100-102 | (peak−equity)/peak when peak > 0, and 0 otherwise; never negative; at most 1 for non-negative equity |
| Backtest.Mark | python_backend/app/backtest.py:96-109 | recording an equity point leaves the account unchanged |
| Backtest.Simulate | python_backend/app/backtest.py:92-115 | the loop keeps the account invariant, appends exactly one equity point per bar and never lowers the peak |
| Backtest.SimulateNext | python_backend/app/backtest.py:92-115 | n+1 steps of the loop are n steps followed by one bar |
| Backtest.SimulateCurve | python_backend/app/backtest.py:99-109 | each recorded point carries its bar's timestamp, a drawdown ≥ 0, and an equity at most the final peak |
| Backtest.ApplyKeepsCash | python_backend/app/backtest.py:111-154 | with commission in [0,1] and non-negative cash, a bar's trade keeps the cash non-negative |
| Backtest.SimulateKeepsCash | python_backend/app/backtest.py:92-115 | with commission in [0,1] the cash never goes negative over the loop |
| Backtest.CloseOut | python_backend/app/backtest.py:117-120 | an open position is sold at the last close with an end-of-backtest trade; afterwards the position is 0 |
| Backtest.Wins | python_backend/app/backtest.py:191 | the winning pnls are all positive and no more than the trades |
| Backtest.Losses | python_backend/app/backtest.py:192 | the losing magnitudes are all positive and no more than the trades |
| Backtest.WinsAndLossesDisjoint | python_backend/app/backtest.py:185-187 | winning + losing ≤ total, strictly less when some trade has pnl 0 |
| Backtest.SumPositive | python_backend/app/backtest.py:197-198 | a sum of positive amounts is non-negative, and positive when non-empty |
| Backtest.MaxDrawdown | python_backend/app/backtest.py:223 | 0 for an empty curve; otherwise an upper bound of every drawdown attained by one of them |
| Backtest.WinRate | python_backend/app/backtest.py:188 | 0 with no trades; otherwise rate·total = winning·100, within [0,100] |
| Backtest.AverageOrZero | python_backend/app/backtest.py:193-194 | 0 for no values, otherwise a positive mean |
| Backtest.ProfitFactor | python_backend/app/backtest.py:196-199 | the win total over the loss total, using 1 when there are no losses; 0 with no wins; never negative |
| Backtest.FinalEquity | python_backend/app/backtest.py:178 | with no position (as after every run) the final equity is the cash |
| Backtest.ReturnPct | python_backend/app/backtest.py:181-182 | pct·initial = return·100; positive iff the return is, for positive capital |
| Backtest.Report | python_backend/app/backtest.py:176-248 | fails with ZeroDivisionError iff initial capital is 0; otherwise total trades, winning and losing counts from Wins/Losses, win rate = WinRate (rate·total = winning·100, pnl 0 stays in the total), avg win/loss = AverageOrZero of the wins and loss magnitudes (their means), profit factor = ProfitFactor (wins over losses, 1 when there are none), max drawdown = MaxDrawdown (the attained maximum, 0 for an empty curve) and its pct = 100× max drawdown; strategy id, symbol, dates and initial capital copied from the config; total return = final capital − initial capital, return pct·initial = return·100; trades and equity curve passed through |
| Backtest.FreshRun | python_backend/app/backtest.py:86-122 | a whole run has one equity point per bar with drawdowns ≥ 0, ends flat, and reports final capital = cash |
| Backtest.BacktestEngine.constructor | python_backend/app/backtest.py:60-74 | cash = initial capital, no position, no trades, empty curve, no open trade |
| Backtest.BacktestEngine.ExecuteBuy | python_backend/app/backtest.py:124-145 | the new state is `AfterBuy` of the old state; the curve is unchanged |
| Backtest.BacktestEngine.ExecuteSell | python_backend/app/backtest.py:147-174 | the new state is `AfterSell` of the old state; the curve is unchanged |
| Backtest.BacktestEngine.Act | python_backend/app/backtest.py:111-115 | the new state is `Apply` of the old state and the signal |
| Backtest.BacktestEngine.Replay | python_backend/app/backtest.py:89-115 | after the loop, state, curve and peak are `Simulate` of the starting state over all bars |
| Backtest.BacktestEngine.Run | python_backend/app/backtest.py:76-122 | no bars: fails "No data provided for backtest" with nothing changed; otherwise the state is the close-out of the simulated run and the result is its report |
| NewsForwardTester.Lower | python_backend/news_forward_tester.py:135 | the lower-cased text has the same length and no upper-case ASCII letter |
| NewsForwardTester.Hits | python_backend/news_forward_tester.py:146-147 | each keyword counts at most once: 0 iff none occurs, all iff every one occurs |
| NewsForwardTester.OverlappingKeywordsBothCount | python_backend/news_forward_tester.py:137-146 | "upgrade" counts both "up" and "upgrade" |
| NewsForwardTester.Balance | python_backend/news_forward_tester.py:149-159 | no hits: (0, neutral, 0.5); otherwise score·(pos+neg) = pos−neg, score in [−1,1], its sign that of pos−neg, label by ±0.2, confidence in [0.5,1] |
| NewsForwardTester.FallbackSentiment | python_backend/news_forward_tester.py:125-159 | the keyword sentiment is the balance of positive and negative hits in the lower-cased text |
| NewsForwardTester.OnlyPositiveHits | python_backend/news_forward_tester.py:153-159 | only positive hits give (1, positive, 1) |
| NewsForwardTester.MapModelOutput | python_backend/news_forward_tester.py:105-120 | positive/label_2 keeps the score, negative/label_0 negates it, anything else gives 0; the label follows the sign; confidence = \|score\| |
| NewsForwardTester.ModelLabels | python_backend/news_forward_tester.py:105-120 | POSITIVE, LABEL_0, LABEL_2 and neutral outputs map as the rule says |
| NewsForwardTester.AnalyzeSentiment | python_backend/news_forward_tester.py:97-123 | without a model the keyword sentiment; with one the mapped output |
| NewsForwardTester.Symbols | python_backend/news_forward_tester.py:179-185 | the grouped symbols: exactly those of items with a non-empty symbol, each once, in first-appearance order |
| NewsForwardTester.ItemsFor | python_backend/news_forward_tester.py:180-185 | a symbol's group holds only items with that symbol |
| NewsForwardTester.SymbolsHaveItems | python_backend/news_forward_tester.py:183-185 | every grouped symbol has at least one item |
| NewsForwardTester.VolumeScore | python_backend/news_forward_tester.py:202-208 | 1 unless more than 20 rows with a positive 20-bar mean; then score·mean(last 20) = mean(last 5) |
| NewsForwardTester.Decide | python_backend/news_forward_tester.py:211-219 | buy iff avg > 0.3 and volume > 1.2; otherwise sell iff avg < −0.3; otherwise hold at 0.5; confidence ≤ 1 |
| NewsForwardTester.ScoreSymbol | python_backend/news_forward_tester.py:189-234 | a symbol's signal counts its items, labels its average score by ±0.2, and never buys without volume > 1.2 |
| NewsForwardTester.ScoreSymbolBounded | python_backend/news_forward_tester.py:198 | with scores in [−1,1] the average score is in [−1,1] |
| NewsForwardTester.Insert | python_backend/news_forward_tester.py:237 | inserting adds exactly one element |
| NewsForwardTester.InsertSorted | python_backend/news_forward_tester.py:237 | insertion keeps the descending confidence order |
| NewsForwardTester.SortByConfidence | python_backend/news_forward_tester.py:237 | the sort is a permutation of its input |
| NewsForwardTester.SortSorted | python_backend/news_forward_tester.py:237 | the sorted list is in descending confidence order |
| NewsForwardTester.SortIsStable | python_backend/news_forward_tester.py:237 | signals of equal confidence keep their input order |
| NewsForwardTester.SortDistinct | python_backend/news_forward_tester.py:237 | sorting keeps symbols distinct |
| NewsForwardTester.SliceTo | python_backend/news_forward_tester.py:238 | Python `[:n]`, negative n counting from the end |
| NewsForwardTester.GroupBySymbol | python_backend/news_forward_tester.py:179-185 | the dictionary's keys are the grouped symbols in order, each mapped to its items |
| NewsForwardTester.GenerateSignals | python_backend/news_forward_tester.py:161-238 | the result is `NewsSignals`: the symbols' signals sorted by confidence and cut to `top_n * 2` |
| NewsForwardTester.SignalsSortedAndCounted | python_backend/news_forward_tester.py:237-238 | the output is sorted by confidence, with min(2·top_n, symbols) entries for top_n ≥ 0 |
| NewsForwardTester.SignalsAreScoredSymbols | python_backend/news_forward_tester.py:189-234 | every output signal is a grouped symbol's, counts its items, has confidence ≤ 1 and buys only with volume > 1.2 |
| NewsForwardTester.SignalsDistinct | python_backend/news_forward_tester.py:189-238 | no symbol appears twice in the output |
| DataFetcher.DigitRun | python_backend/app/data_fetcher.py:118 | the greedy `\d+` run at the front: all digits, followed by a non-digit or the end |
| DataFetcher.UnitAtFront | python_backend/app/data_fetcher.py:118 | the first of Min, Hour, Day, Week, Month that prefixes the rest, or none |
| DataFetcher.ParseCustom | python_backend/app/data_fetcher.py:117-133 | matches iff digits are followed by a unit name; the amount is the digits' value |
| DataFetcher.ParseTimeframe | python_backend/app/data_fetcher.py:103-138 | table key → its entry; else the pattern's (amount, unit); else one day |
| DataFetcher.ShowRoundTrip | python_backend/app/data_fetcher.py:120 | `int()` of a rendered amount gives the amount |
| DataFetcher.PatternParses | python_backend/app/data_fetcher.py:118-133 | digits of an amount then a unit name, anything after, parse to that amount and unit |
| DataFetcher.ParseAmountAndUnit | python_backend/app/data_fetcher.py:103-138 | such a string gives TimeFrame(amount, unit) whether it is a table key or not |
| DataFetcher.TableAgreesWithPattern | python_backend/app/data_fetcher.py:103-111 | every table entry equals what the pattern gives for its key |
| DataFetcher.PrefixMatch | python_backend/app/data_fetcher.py:118 | "1Minute" parses as one minute |
| DataFetcher.DefaultsToOneDay | python_backend/app/data_fetcher.py:136 | an input without a leading digit gives one day instead of failing |

## Left out

- Sharpe and Sortino ratios (`app/backtest.py:201-220`). They need square roots and float statistics, so `BacktestResult` has no such fields.
- The Bollinger rolling standard deviation needs a square root. `Indicators.BollingerAt` takes it as a non-negative input, and `MeanReversionIntraday.ReadingsAt` passes it through.
- `calculate_all_indicators`. It only names DataFrame columns.
- Floating-point rounding and IEEE infinities. The arithmetic is exact over the reals.
- A division by a zero user parameter is excluded by a `requires` instead of being modelled:
  - `OpeningRangeBreakout` needs `volume_threshold ≠ 0`. Its validator does not check `volume_threshold`, so this excludes a setting the source accepts.
  - `MorningMomentum` needs `gap_threshold ≠ 0` and `volume_ratio_min ≠ 0`. Its validator rejects both.
  - `SectorMomentum` needs `volume_surge_threshold ≠ 0` and `rsi_max ≠ rsi_min`. Its validator rejects both.
  - In the source, such a division on a numpy value gives infinity or NaN; an infinite confidence is then capped to 1.0. When the volume mean is not positive, the ratio is a plain Python number (`1.0` in `opening_range_breakout.py:88` and `sector_momentum.py:87`, `0` in `morning_momentum.py:65`), and dividing it by a zero threshold raises `ZeroDivisionError`.
- Rolling-window lengths (SMA, RSI, Bollinger, volume and range periods) must be whole numbers of at least 1 (the `Window` predicate). pandas also accepts a `rolling` window of 0, which yields only NaN; the model does not. EMA spans (the `Span` predicate) may be any real of at least 1, as `ewm` accepts.
- Some members assume positive prices and non-negative volumes (`PositiveBars`), as market data has: the backtest engine, and the strategies that divide by a price or by the VWAP.
- Backtest.BacktestEngine.Run: the strategy call `analyze(df, i)` is replaced by a given sequence of signals, one per bar. This is sound because the strategies never read the engine's state.
- Backtest.Report: `final_equity` reads `capital + position * equity_curve[-1].equity`. The model does the same, but only the flat case is proved, where it is the cash. After `run` the position is always 0.
- Backtest.Completed: the logged pnl charges the exit commission twice and the entry commission not at all. This is modelled as written, and `Backtest.RoundTripCash` states the difference.
- Reason strings are an enumeration. The numbers formatted into reasons and descriptions (`:.2f`, f-strings) are not modelled.
- NewsForwardTester.Lower lower-cases ASCII letters only, and DataFetcher.IsDigit accepts ASCII digits only. Python's `lower()` and `\d` are Unicode-aware.
- NewsForwardTester.AnalyzeSentiment: the transformers model, its 512-character truncation and its exception fallback are a foreign library. The model's output is an input.
- `generate_signals` timestamps (`datetime.now()`), `save_signals`, `load_signals`, `get_latest_results` and `simulate_forward_test` (random exit prices, file I/O) are not modelled.
- A news item whose headline key holds an explicit None is not modelled. A missing headline is the empty string.
- `DataFetcher.__init__`, `get_bars` and the Alpaca client. The Alpaca `TimeFrame` is a plain (amount, unit) datatype, and its validation of the amount is not modelled.
- `main.py` (HTTP routes), `example_usage.py` and `indicators/__init__.py`. These are transport glue, a demo and re-exports.

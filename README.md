# Strategy engine rule sets, modelled in Dafny

The strategy engine serves a set of technical-analysis trading strategies.
Each strategy module supplies three entry points, and this project models all three for every strategy:

- `calculate_strategy_indicators` attaches indicator columns to a bar table in place.
- `run_strategy` reads the last one or two rows and returns a signal (`HOLD`, `BUY`, `SELL`, `CLOSE_LONG`, `CLOSE_SHORT`) with an explanation.
- `get_chart_overlay_data` turns indicator columns into `(time, value)` lines with missing values dropped.

The model has three shared modules and one module per strategy.

- `Base` holds the shared data model:
  - the bar table is the class `Table`;
  - its column map is the only mutable state, and the attachment steps add, overwrite and rename columns in it;
  - column labels are structured keys (`ColKey`), so `SMA_10` is `Ind("SMA", [Some(10.0)])`, and a period read without a default that is absent is `None`, which the source formats as the text `None`;
  - parameters are a `map<string, real>`;
  - a missing value (NaN or `pd.NA`) is `None`.
- `Signals` holds the decision vocabulary:
  - the `Decision` record: a signal, a reason tag in place of the formatted `details` text, and the optional Bollinger `bias`;
  - the crossover predicates;
  - the position gate that most strategies share. With no position it enters; with `"LONG"` it exits on a sell event; with `"SHORT"` it exits on a buy event; any other position string holds.
- `Overlays` holds the overlay machinery:
  - the missing-value filter behind every overlay line;
  - the loop the three-line overlays run over (column, chart key) pairs;
  - the time-reference rule. Strict overlays need a datetime index. Lenient ones also accept a `timestamp` column.

Calls into the indicator library (pandas-ta) are parameters of the attachment methods: a `SeriesCall` or `FrameCall` that either raises, returns `None`, or returns columns.
An attachment method returns `Raised` when the source lets an exception escape. That covers an unguarded library error and the `KeyError` raised when a label the code looks up is missing from the library's output. Writes made before the exception are kept.

Each `run_strategy` is a function of the table. Its contract lists every guard in the source's order and the reason each one returns. Past the guards it equals a pure `Decide` over the values read. `Decide` states, as if-and-only-ifs, when each signal fires and which HOLD context is reported. Lemmas add that:

- only the last one or two rows matter;
- the position is ignored where the source ignores it;
- the buy and sell events exclude each other.

Several behaviours of the source are reproduced as written:

- Donchian, EMA crossover and RSI read their periods without defaults in `run_strategy` and the overlay, while the attachment step applies defaults. With a period omitted, the rule looks up a label spelled with `None` and reports incomplete data (`DefaultMismatch`).
- MACD reads its periods without defaults in the attachment step as well. With a period omitted, the label it copies from a usable library result is spelled with `None` and cannot be among the library's labels, so the attachment raises `KeyError` (`OmittedPeriodLabelsNeverProduced`).
- The RSI rule compares with levels read without defaults, so an omitted level raises `TypeError` once the data guard has passed.
- The Bollinger rule does not check the close for a missing value. A missing close falls through every comparison to a HOLD with a bearish bias.

## Model

| member | source | states |
|---|---|---|
| Base.Table.CopyFrom | strategies/macd_trend_strategy.py:21-23 | copying a label from the library's output writes exactly that column when the label is present, and otherwise reports the `KeyError` and writes nothing |
| Base.Table.Rename | strategies/keltner_channel_breakout.py:71 | an in-place rename moves the column's values to the new label and removes the old label |
| Base.Table.Append | strategies/bollinger_band_mean_reversion_strategy.py:21 | appending the library's output adds every produced column under its label and keeps the other columns |
| Signals.PositionOf | api/strategies/awesome_oscillator_zero_cross.py:71-86 | `None`, `"LONG"` and `"SHORT"` are told apart, and every other string is a fourth case |
| Signals.Gate | strategies/supertrend_following.py:74-88 | with no position, a buy event gives BUY and otherwise a sell event gives SELL; with LONG, a sell event gives CLOSE_LONG; with SHORT, a buy event gives CLOSE_SHORT; otherwise the signal is HOLD (each as an if-and-only-if) |
| Signals.Gated | strategies/trix_signal_line.py:71-93 | the signal is the gate's; a HOLD carries the context message and a fired signal its own explanation |
| Signals.CrossesExclusive | api/strategies/trix_signal_line.py:68-69 | a cross above and a cross below cannot both occur on the same bar |
| Signals.GateExclusive | api/strategies/vwap_cross_strategy.py:64-78 | for exclusive events, SELL fires exactly on a sell event with no position, entries need no position, and an unknown position always holds |
| Overlays.PointsAppend | strategies/sma_crossover_strategy.py:111-113 | the missing-value filter distributes over concatenation, so lines keep row order |
| Overlays.PointsValues | api/strategies/sma_crossover_strategy.py:114-116 | the values of a line are exactly the column's non-missing values, in order |
| Overlays.PointsSound | strategies/rate_of_change_rocstrategy.py:101-103 | every point of a line comes from a row whose value is present, with that row's time |
| Overlays.PointsComplete | api/strategies/rate_of_change_rocstrategy.py:101-103 | every row whose value is present yields its point |
| Overlays.PointsEmpty | strategies/keltner_channel_breakout.py:157 | a line is empty exactly when every value of the column is missing |
| Overlays.CollectLines | strategies/donchian_channels.py:68-72 | the loop over (column, chart key) pairs builds the chart defined by `ChartOf` |
| Overlays.ChartOfSpec | api/strategies/bollinger_band_mean_reversion_strategy.py:78-80 | with distinct chart keys, a key is in the chart exactly when its column exists (and, when empty lines are skipped, has a present value), and it maps to that column's line |
| Keltner.FirstPresent | strategies/keltner_channel_breakout.py:60-62 | the result is the first candidate label present in the table, and it is `None` exactly when no candidate is present |
| Keltner.FixBand | strategies/keltner_channel_breakout.py:69-80 | a library band column found under either spelling is renamed to the desired label and the found label is gone; otherwise the desired label exists afterwards, filled with missing values if it was absent; every other column, including the spelling not found, is kept unchanged |
| Keltner.FixBandInPlace | strategies/keltner_channel_breakout.py:70-72 | the in-place rename-or-fill of one band leaves the table equal to `FixBand` of the old columns |
| Keltner.RenamedHasBands | strategies/keltner_channel_breakout.py:82-87 | after the rename/fill step the three desired band columns exist, and only the library's own band labels can have disappeared |
| Keltner.CalculateIndicators | strategies/keltner_channel_breakout.py:17-88 | without high, low and close nothing changes; when the library raises, the three bands are filled with missing values; otherwise the library output is appended and renamed; with the inputs present the three bands always exist afterwards |
| Keltner.Decide | strategies/keltner_channel_breakout.py:116-135 | the entry, exit and HOLD outcomes of the breakout rule as if-and-only-ifs; BUY wins when both breaks hold |
| Keltner.RunStrategy | strategies/keltner_channel_breakout.py:90-135 | missing columns, no rows and missing latest values each hold with their own reason; no signal fires unless every guard passes; past them the result is `Decide` of the latest close and bands |
| Keltner.LatestRowOnly | strategies/keltner_channel_breakout.py:110-118 | tables that agree on the last row of the bands and the close get the same decision |
| Keltner.ChartOverlay | strategies/keltner_channel_breakout.py:137-162 | no time reference gives an empty chart; each band line is present exactly when its column exists with a present value, and it is that column's filtered line |
| Candlestick.Lower | strategies/candlestick_trend_filter_strategy.py:44 | ASCII lower-casing keeps the length, leaves no upper-case letter, keeps every other character, and sends each upper-case letter to the lower-case letter at the same place in the alphabet |
| Candlestick.LowerIdempotent | strategies/candlestick_trend_filter_strategy.py:44 | lowering an already lowered code changes nothing |
| Candlestick.PatternColCaseInsensitive | strategies/candlestick_trend_filter_strategy.py:75-78 | codes that differ only in case name the same pattern column, and the default code names `pattern_engulfing` |
| Candlestick.CalculateIndicators | strategies/candlestick_trend_filter_strategy.py:21-71 | without OHLC nothing changes; otherwise the EMA column is the series or missing values, and the pattern column is the pattern series or zeros; with OHLC present both columns the rule reads exist afterwards, and the pattern column is all zeros whenever the pattern function is unavailable or fails |
| Candlestick.Decide | strategies/candlestick_trend_filter_strategy.py:98-137 | a bullish pattern above the EMA buys and a bearish one below sells, gated by position; a HOLD reports the pattern and trend, or "no pattern" when the value is 0 |
| Candlestick.RunStrategy | strategies/candlestick_trend_filter_strategy.py:73-137 | the three guards in order, each with its reason; no signal fires unless every guard passes; past them the result is `Decide` of the latest values |
| Candlestick.ChartOverlay | strategies/candlestick_trend_filter_strategy.py:139-156 | only the trend EMA line, present exactly when a time reference exists and the column has a present value |
| Stochastic.CalculateIndicators | api/strategies/stolastc_oscilator.py:28-48 | without high, low and close nothing changes; a library error escapes; a usable result copies %K then %D, and a missing label raises with the earlier writes kept |
| Stochastic.Decide | api/strategies/stolastc_oscilator.py:74-109 | BUY/SELL/CLOSE_* exactly on the oversold or overbought %K/%D crosses under the position gate; a HOLD reports oversold, then overbought, then the %K-versus-%D momentum |
| Stochastic.RunStrategy | api/strategies/stolastc_oscilator.py:50-109 | the three guards in order, each with its reason; no signal fires unless every guard passes; past them the result is `Decide` of the last two %K and %D values |
| Stochastic.LastTwoRowsOnly | api/strategies/stolastc_oscilator.py:70-77 | tables that agree on the last two rows of %K and %D get the same decision |
| Stochastic.ChartOverlay | api/strategies/stolastc_oscilator.py:111-130 | the %K and %D lines, each present exactly when a datetime index exists and the column exists |
| Cci.CalculateIndicators | strategies/cci_strategy.py:23-53 | without high, low and close nothing changes; a library error fills the column with missing values; a usable series is written; a None or empty one writes nothing; after an error or a usable series the rule finds its column, for every position |
| Cci.CrossesExclusive | strategies/cci_strategy.py:82-87 | the buy and sell re-crosses cannot both hold, whatever the thresholds |
| Cci.Decide | api/strategies/cci_strategy.py:82-113 | invalid thresholds hold with their own reason; otherwise the threshold re-crosses decide under the position gate, and a HOLD reports below, above or between |
| Cci.RunStrategy | strategies/cci_strategy.py:55-113 | the data guards come before the threshold check; no signal fires unless the data are ready and the thresholds valid; past the guards the result is `Decide` |
| Cci.LastTwoRowsOnly | api/strategies/cci_strategy.py:74-79 | tables that agree on the last two CCI values get the same decision |
| Cci.ChartOverlay | strategies/cci_strategy.py:115-139 | the CCI line, present exactly when a datetime index exists and the column exists |
| Supertrend.CalculateIndicators | strategies/supertrend_following.py:19-43 | without high, low and close nothing changes; a library error escapes; a usable result copies the line then the direction column, and a missing label raises with the earlier writes kept; a completed copy adds exactly the line and direction labels, leaves every other column unchanged, and gives the rule the columns it reads |
| Supertrend.Decide | api/strategies/supertrend_following.py:67-96 | a flip from -1 to 1 is the buy event and from 1 to -1 the sell event under the position gate; a HOLD reports bullish, bearish or unclear from the latest direction |
| Supertrend.UnchangedDirectionHolds | strategies/supertrend_following.py:71-72 | an unchanged direction always holds, and the two flips exclude each other |
| Supertrend.RunStrategy | api/strategies/supertrend_following.py:45-96 | the three guards in order, each with its reason; no signal fires unless every guard passes; past them the result is `Decide` of the last two directions |
| Supertrend.LastTwoRowsOnly | strategies/supertrend_following.py:63-69 | tables that agree on the last two direction values (and the close) get the same decision |
| Supertrend.ChartOverlay | api/strategies/supertrend_following.py:98-112 | the Supertrend line, present exactly when a datetime index exists and the column exists |
| Trix.CalculateIndicators | strategies/trix_signal_line.py:19-40 | without close nothing changes; a library error escapes; a usable result copies the TRIX then the signal column, and a missing label raises with the earlier writes kept |
| Trix.Decide | api/strategies/trix_signal_line.py:63-95 | crosses of TRIX over its signal line decide under the position gate; a HOLD reports above, below or equal |
| Trix.RunStrategy | strategies/trix_signal_line.py:42-95 | the three guards in order, each with its reason; no signal fires unless every guard passes; past them the result is `Decide` of the last two values of both lines |
| Trix.LastTwoRowsOnly | api/strategies/trix_signal_line.py:59-66 | tables that agree on the last two rows of both lines get the same decision |
| Trix.ChartOverlay | strategies/trix_signal_line.py:97-116 | the TRIX and signal lines, each present exactly when a datetime index exists and the column exists |
| SmaCrossover.CalculateIndicators | api/strategies/sma_crossover_strategy.py:19-56 | without close nothing changes; a library error escapes with nothing written; otherwise both SMA columns are written, as missing values when the library returns None, so after a completed attachment the rule never reports missing columns, for any position |
| SmaCrossover.Decide | strategies/sma_crossover_strategy.py:65-92 | SMA crosses decide under the position gate; a HOLD reports above, below or equal |
| SmaCrossover.CrossUpExample | api/strategies/sma_crossover_strategy.py:71-90 | a concrete cross up buys when flat, closes a short, and holds "above" when long |
| SmaCrossover.RunStrategy | api/strategies/sma_crossover_strategy.py:45-92 | the three guards in order, each with its reason; no signal fires unless every guard passes; past them the result is `Decide` of the last two values of both SMAs |
| SmaCrossover.LastTwoRowsOnly | strategies/sma_crossover_strategy.py:61-68 | tables that agree on the last two rows of both SMAs get the same decision |
| SmaCrossover.ChartOverlay | strategies/sma_crossover_strategy.py:94-117 | both SMA lines, each present exactly when a time reference (index or timestamp column) exists and the column exists |
| AwesomeOscillator.CalculateIndicators | strategies/awesome_oscillator_zero_cross.py:19-43 | without high and low nothing changes; a library error escapes; a usable series is written, otherwise the column is filled with missing values |
| AwesomeOscillator.Decide | api/strategies/awesome_oscillator_zero_cross.py:64-95 | zero-line crosses decide under the position gate; a HOLD reports positive, negative or zero |
| AwesomeOscillator.AtZeroHolds | strategies/awesome_oscillator_zero_cross.py:87-95 | an oscillator sitting at zero always holds with the "at zero" context |
| AwesomeOscillator.RunStrategy | strategies/awesome_oscillator_zero_cross.py:45-95 | the three guards in order, each with its reason; no signal fires unless every guard passes; past them the result is `Decide` of the last two values |
| AwesomeOscillator.LastTwoRowsOnly | api/strategies/awesome_oscillator_zero_cross.py:60-65 | tables that agree on the last two AO values get the same decision |
| AwesomeOscillator.ChartOverlay | api/strategies/awesome_oscillator_zero_cross.py:97-115 | the AO line, present exactly when a time reference exists and the column exists |
| Bollinger.ColNames | strategies/bollinger_band_mean_reversion_strategy.py:28-44 | the three labels are the lower, middle and upper band kinds over the same length and standard deviation |
| Bollinger.ColNamesDistinct | api/strategies/bollinger_band_mean_reversion_strategy.py:28-44 | the three labels are distinct; two parameter sets share the middle label exactly when they share length and standard deviation, and then share all three |
| Bollinger.CalculateIndicators | strategies/bollinger_band_mean_reversion_strategy.py:16-25 | without close, or when the library raises or returns None, nothing changes (errors are swallowed); otherwise the output is appended |
| Bollinger.Decide | api/strategies/bollinger_band_mean_reversion_strategy.py:55-72 | the priority chain BUY, SELL, CLOSE_LONG, CLOSE_SHORT under comparisons that are false for a missing close; a HOLD carries a bullish bias exactly when the close is above the middle band, and fired signals carry none |
| Bollinger.MissingCloseHoldsBearish | strategies/bollinger_band_mean_reversion_strategy.py:52-72 | a missing latest close passes the guards and yields HOLD with a bearish bias |
| Bollinger.RunStrategy | strategies/bollinger_band_mean_reversion_strategy.py:46-72 | missing columns and then incomplete band data each hold with their reason; a bias is set exactly on a HOLD past the guards; past them the result is `Decide` |
| Bollinger.PositionIgnored | api/strategies/bollinger_band_mean_reversion_strategy.py:46-72 | the decision does not depend on the position passed in |
| Bollinger.LastTwoRowsOnly | strategies/bollinger_band_mean_reversion_strategy.py:52-57 | tables that agree on the last two rows of the bands and the close get the same decision |
| Bollinger.ChartOverlay | api/strategies/bollinger_band_mean_reversion_strategy.py:74-86 | no time reference gives an empty chart; each band line is present exactly when its column exists with a present value, and it is that column's line |
| RateOfChange.CalculateIndicators | strategies/rate_of_change_rocstrategy.py:19-34 | without close nothing changes; a library error escapes; a series is written, and None fills the column with missing values |
| RateOfChange.Decide | api/strategies/rate_of_change_rocstrategy.py:56-88 | a non-positive threshold holds as invalid; otherwise ROC above the threshold is the buy event and below its negation the sell event, under the position gate |
| RateOfChange.LevelsExclusive | strategies/rate_of_change_rocstrategy.py:59-64 | with a positive threshold the two levels exclude each other; with a negative one a zero ROC passes both, and the threshold guard answers it with HOLD |
| RateOfChange.RunStrategy | api/strategies/rate_of_change_rocstrategy.py:36-88 | the three guards on the latest value in order; no signal fires unless the value is ready and the threshold positive; past them the result is `Decide` |
| RateOfChange.LatestRowOnly | api/strategies/rate_of_change_rocstrategy.py:52-56 | tables that agree on the latest ROC value get the same decision |
| RateOfChange.ChartOverlay | strategies/rate_of_change_rocstrategy.py:90-104 | the ROC line, present exactly when a time reference exists and the column exists |
| ChaikinMoneyFlow.CalculateIndicators | strategies/chaikin_money_flow.py:19-36 | without high, low, close and volume nothing changes; a library error escapes; a usable series is written, anything else writes nothing |
| ChaikinMoneyFlow.CrossesExclusive | strategies/chaikin_money_flow.py:65-66 | the bullish and bearish threshold crosses cannot both hold |
| ChaikinMoneyFlow.Decide | strategies/chaikin_money_flow.py:57-89 | a non-positive threshold holds as invalid; otherwise crosses of plus and minus the threshold decide under the position gate, and a HOLD reports bullish, bearish or neutral |
| ChaikinMoneyFlow.RunStrategy | strategies/chaikin_money_flow.py:38-89 | the three guards in order; no signal fires unless the data are ready and the threshold positive; past them the result is `Decide` |
| ChaikinMoneyFlow.LastTwoRowsOnly | strategies/chaikin_money_flow.py:53-58 | tables that agree on the last two CMF values get the same decision |
| ChaikinMoneyFlow.ChartOverlay | strategies/chaikin_money_flow.py:91-103 | the CMF line, present exactly when a datetime index exists and the column exists |
| VwapCross.CalculateIndicators | api/strategies/vwap_cross_strategy.py:20-37 | without high, low, close and volume nothing changes; a library error escapes; a usable series is written, anything else writes nothing |
| VwapCross.Decide | api/strategies/vwap_cross_strategy.py:56-85 | crosses of the close over VWAP decide under the position gate; a HOLD reports above, below or at VWAP |
| VwapCross.RunStrategy | api/strategies/vwap_cross_strategy.py:39-85 | the three guards in order; no signal fires unless every guard passes; past them the result is `Decide` of the last two closes and VWAP values |
| VwapCross.LastTwoRowsOnly | api/strategies/vwap_cross_strategy.py:52-59 | tables that agree on the last two rows of VWAP and close get the same decision |
| VwapCross.ChartOverlay | api/strategies/vwap_cross_strategy.py:87-99 | the VWAP line, present exactly when a datetime index exists and the column exists |
| HmaSlope.CalculateIndicators | api/strategies/hma_slope_trend_strategy.py:16-29 | without close nothing changes; a library error escapes; a usable series is written, anything else writes nothing |
| HmaSlope.Decide | api/strategies/hma_slope_trend_strategy.py:48-84 | a rising HMA is the buy event and a falling one the sell event under the position gate; a HOLD reports rising, falling or flat |
| HmaSlope.SlopeOutcomes | api/strategies/hma_slope_trend_strategy.py:54-68 | a flat HMA always holds, and with no position any other slope enters |
| HmaSlope.RunStrategy | api/strategies/hma_slope_trend_strategy.py:31-84 | the three guards in order; no signal fires unless every guard passes; past them the result is `Decide` of the last two HMA values |
| HmaSlope.LastTwoRowsOnly | api/strategies/hma_slope_trend_strategy.py:44-49 | tables that agree on the last two HMA values get the same decision |
| HmaSlope.ChartOverlay | api/strategies/hma_slope_trend_strategy.py:86-98 | the HMA line, present exactly when a datetime index exists and the column exists |
| MacdTrend.CalculateIndicators | strategies/macd_trend_strategy.py:15-24 | without close nothing changes; a library error escapes; a usable result copies MACD, histogram and signal in order, and it completes exactly when all three labels are present |
| MacdTrend.OmittedPeriodLabelsNeverProduced | api/strategies/macd_trend_strategy.py:16-23 | with a period omitted, the label looked up contains `None` and cannot be among labels built from numeric periods |
| MacdTrend.Decide | api/strategies/macd_trend_strategy.py:31-38 | BUY exactly on a cross above the signal line and SELL exactly on a cross below, with no exits; a HOLD reports above, below, or keeps its initial message |
| MacdTrend.RunStrategy | strategies/macd_trend_strategy.py:26-38 | one combined data guard reports incomplete data; no CLOSE_* is ever produced; past the guard the result is `Decide` |
| MacdTrend.PositionIgnored | strategies/macd_trend_strategy.py:26-30 | the decision does not depend on the position passed in |
| MacdTrend.LastTwoRowsOnly | api/strategies/macd_trend_strategy.py:30-31 | tables that agree on the last two rows of MACD and signal get the same decision |
| MacdTrend.ChartOverlay | api/strategies/macd_trend_strategy.py:40-49 | the MACD, signal and histogram lines, each present exactly when a time reference exists and the column exists |
| Donchian.MiddleCol | strategies/donchian_channels.py:61 | the middle label starts with the lower length and ends with the upper one, and has a single length exactly when the two are equal |
| Donchian.MiddleColDistinct | strategies/donchian_channels.py:61 | two settings give the same middle label exactly when their lower and upper lengths agree, and the middle label is never the upper or lower one |
| Donchian.CalculateIndicators | strategies/donchian_channels.py:16-34 | without high and low nothing changes; a library error fills the upper and lower labels with missing values; otherwise the output is appended |
| Donchian.Decide | strategies/donchian_channels.py:49-54 | BUY exactly when the close is above the upper channel, SELL exactly when it is not and is below the lower channel, otherwise HOLD "within" |
| Donchian.RunStrategy | strategies/donchian_channels.py:36-54 | one combined guard on the latest channel and close values; past it the result is `Decide` |
| Donchian.PositionIgnored | strategies/donchian_channels.py:36-47 | the decision does not depend on the position passed in |
| Donchian.DefaultMismatch | strategies/donchian_channels.py:17-41 | the rule reads the attached labels exactly when both lengths are given; with one omitted the rule reports incomplete data |
| Donchian.BreakoutExample | strategies/donchian_channels.py:50-53 | concrete closes above, below and inside a channel give BUY, SELL and HOLD |
| Donchian.LatestRowOnly | strategies/donchian_channels.py:45-49 | tables that agree on the last row of the channels and the close get the same decision |
| Donchian.ChartOverlay | strategies/donchian_channels.py:56-72 | no time reference gives an empty chart; each channel line is present exactly when its column exists with a present value, and it is that column's line |
| EmaCrossover.CalculateIndicators | api/strategies/ema_simple_crossover.py:14-23 | without close nothing changes; both library calls run before any write, so an error in either escapes with nothing written; each series returned is written, a None writes nothing |
| EmaCrossover.Decide | strategies/ema_simple_crossover.py:31-36 | BUY exactly on a cross above and SELL exactly on a cross below, with no exits; a HOLD reports above, below, or keeps its initial message |
| EmaCrossover.RunStrategy | api/strategies/ema_simple_crossover.py:25-36 | one combined data guard reports incomplete data; no CLOSE_* is ever produced; past the guard the result is `Decide` |
| EmaCrossover.PositionIgnored | strategies/ema_simple_crossover.py:25-30 | the decision does not depend on the position passed in |
| EmaCrossover.DefaultMismatch | api/strategies/ema_simple_crossover.py:15-28 | the rule reads the attached labels exactly when both periods are given; with one omitted the rule reports incomplete data |
| EmaCrossover.LastTwoRowsOnly | strategies/ema_simple_crossover.py:30-31 | tables that agree on the last two rows of both EMAs get the same decision |
| EmaCrossover.ChartOverlay | api/strategies/ema_simple_crossover.py:38-46 | both EMA lines, each present exactly when a time reference exists and the column exists |
| RsiMeanReversion.CalculateIndicators | strategies/rsi_mean_reversion.py:15-21 | without close nothing changes; a library error escapes; a series is written, a None writes nothing |
| RsiMeanReversion.Decide | strategies/rsi_mean_reversion.py:28-35 | BUY exactly on a re-cross above the oversold level, otherwise SELL exactly on a re-cross below the overbought level; a HOLD reports oversold, overbought, or keeps its initial message |
| RsiMeanReversion.CrossesExclusive | strategies/rsi_mean_reversion.py:29 | the two re-crosses cannot both hold, whatever the levels |
| RsiMeanReversion.ReCrossExamples | strategies/rsi_mean_reversion.py:29-31 | with levels 30 and 70, RSI going 28 to 31 buys, 72 to 69 sells, and 50 to 51 holds |
| RsiMeanReversion.RunStrategy | strategies/rsi_mean_reversion.py:23-35 | one combined data guard reports incomplete data; past it an absent level raises `TypeError` (if and only if); otherwise the result is `Decide` |
| RsiMeanReversion.PositionIgnored | strategies/rsi_mean_reversion.py:23-27 | the outcome does not depend on the position passed in |
| RsiMeanReversion.DefaultMismatch | strategies/rsi_mean_reversion.py:16-27 | the rule reads the attached label exactly when the length is given; with it omitted the rule reports incomplete data |
| RsiMeanReversion.LastTwoRowsOnly | strategies/rsi_mean_reversion.py:27-28 | tables that agree on the last two RSI values get the same outcome |
| RsiMeanReversion.ChartOverlay | strategies/rsi_mean_reversion.py:37-43 | the RSI line, present exactly when a time reference exists and the column exists |

## Left out

- Indicator mathematics (EMA, SMA, ATR, CCI, MACD and the rest) lives in the pandas-ta library and is not part of this model. Each library call is a parameter that raises, returns None, or returns columns aligned with the table.
- Converting times to epoch milliseconds is abstracted. Each row carries an integer time reference `times[i]`. A table with neither a datetime index nor a `timestamp` column yields an empty chart, as in the source.
- The `details` strings, with their number formatting, are replaced by reason tags. Log and print output is left out.
- Parameters are numbers. Labels are structured keys, so the model does not capture that `f"{x}"` spells 20 and 20.0 differently. The candlestick pattern code is the one text parameter and is passed separately.
- NaN and `pd.NA` are both `None`. Comparing a `pd.NA` close raises in pandas, while NaN compares false.
- Candlestick.Lower: folds ASCII letters only; Python's `str.lower()` also lowers non-ASCII letters.
- Bollinger.Decide: follows NaN semantics for a missing close and does not model the exception a `pd.NA` close would raise.
- An escaping exception is recorded (`Completion.Raised`, `RaisesTypeError`) without its type or message.
- pandas tables with duplicate column labels are not modelled. A `map` holds one column per label.
- `main_api.py` and the HTTP layer that loads the strategy modules and calls them are not part of this model.
- The `STRATEGY_PARAMS_UI` metadata is modelled only through the defaults it supplies. The `min`/`max` bounds are UI hints that the code never enforces.
- The strategy files under `api/strategies/` and `strategies/` that are byte-identical share one module. Each row above cites one of the two copies.

# Ichimoku inflection-day analysis, modelled in Dafny

piona_ml scores a stock on its "inflection days". These are fixed checkpoints (9, 13, 26, 33,
42, 51, 65, 77 and 88 trading days) after a significant price low. On each checkpoint it reads
Ichimoku Kinko Hyo signals:

- the conversion line (tenkan-sen) and the base line (kijun-sen);
- the two leading spans, whose gap is the cloud;
- the lagging span (chikou).

It then combines the checkpoint strengths with a machine-learning score into a trading
recommendation.

Four engines share this idea:

- **the enhanced engine** (`predict_model_enhanced_complete.py`): pandas frames, a 20-bar centred
  low search, one rule per checkpoint, an overall score, a recommendation, its technical
  indicators and the ML combiner;
- **the Ichimoku analysis** (`ichimoku_inflection_analysis.py`): the same frame pipeline with
  different rule weights, a tolerance of 3 days and a result measure for passed checkpoints;
- **the list analyzer** (`inflection_analyzer.py`): plain lists of bars, the lowest low of 120
  bars, six rated checkpoints gated by the day count, and active signals of strength 60 or more;
- **the single-symbol report** (`analyze_inflection_005930.py`): an explicit local-minimum scan,
  a status table, the checkpoints near the day count, and a recommendation from the day window
  and the gain tier.

Two supporting pieces are also modelled:

- the indicator library `utils_indicators.py`;
- the pure helpers of the CREON fetcher `fetch_data_creon_simple.py` (stock code, date text, row
  collection and sorting).

Modules:

| file | module | models |
|---|---|---|
| series.dfy | `Series` | bars, column accessors, max/min/mean, pandas `tail`, Python `s[-k:]`, NaN-aware comparisons |
| frames.dfy | `Frames` | a DataFrame: `Table` as a value, `Frame` as the object changed in place, `fillna` |
| ichimoku_lines.dfy | `IchimokuLines` | rolling windows, the five Ichimoku columns, centred rolling min/max, the significant-row filter |
| indicators.dfy | `Indicators` | `utils_indicators.py`, plus the indicator variants of the enhanced engine |
| enhanced_engine.dfy | `EnhancedEngine` | `predict_model_enhanced_complete.py` |
| ichimoku_analysis.dfy | `IchimokuAnalysis` | `ichimoku_inflection_analysis.py` |
| analyzer.dfy | `InflectionAnalyzer` | `inflection_analyzer.py` |
| symbol_report.dfy | `SymbolReport` | `analyze_inflection_005930.py` |
| creon.dfy | `Creon` | `fetch_data_creon_simple.py` |

How the source becomes Dafny:

- A DataFrame whose columns the source assigns is the class `Frames.Frame`. Its methods say the
  whole new state, through the functions `WithIchimoku`, `FillNa`, `EnhancedColumns` and
  `IndicatorColumns`.
- A NaN cell is `None`. Every pandas comparison with NaN is false. Python's `max(a, b)` keeps
  `a` unless `b > a`.
- The rule methods add up a strength with `+=`. Each is a method proved equal to a strength
  function, and the properties are lemmas about that function.
- Loops (the checkpoint loops, the local-minimum scan, the status tables and the row
  collection) are methods with loop invariants, proved against specification functions.
- Prices are positive where the source divides by them (`Series.PositivePrices`).
- A Python error is an outcome value, for example `NoData`, `FlatRange` or `EmptyWindow`.

Where the specification and the code disagree, the model follows the code:

- The lowest point of `inflection_analyzer.py` is the earliest bar with the smallest low, as
  Python's `min` returns it.
- `analyze_33` and `analyze_51` take `data[-days_since:]`. With Python's slice rules this
  window is the whole series for a day count of 0.
- The enhanced engine's D+13 strength is capped at 100 by `min`. Its bonuses add up to 90 at most, so
  the cap never binds.
- In `analyze_inflection_signals` and `generate_combined_signal`, the sell test comes before the
  strong-sell test. Both recommendation chains therefore never produce STRONG_SELL. For those
  two chains this cannot change any result: no reachable score is low enough (see
  `CombinedOfAnalysis` and `NeverActiveDays`). The ML combiner is different; see Findings.

## Model

| member | source | states |
|---|---|---|
| Series.Tail | predict_model_enhanced_complete.py:92 | pandas `tail(k)` / `s[-k:]`: length min(k, n), and each element is the matching element of the end of the input |
| Series.PyTail | inflection_analyzer.py:283 | Python `s[-k:]` for any integer k is a suffix of `s`: of length min(k, len) for k > 0, the whole sequence for k = 0, and max(len + k, 0) elements for k < 0 |
| Series.Max | analyze_inflection_005930.py:175 | Python `max` of a non-empty list bounds every element and is one of them |
| Series.Min | analyze_inflection_005930.py:176 | Python `min` of a non-empty list is below every element and is one of them |
| Series.Mid | ichimoku_inflection_analysis.py:32 | `(a + b) / 2` on cells is defined exactly when both are |
| Series.TailMaxIsLast | ichimoku_inflection_analysis.py:182 | the last value equals the max of the last n exactly when no value among the last n exceeds it |
| Series.PyMax | ichimoku_inflection_analysis.py:229-230 | Python `max(a, b)` with NaN: a NaN first argument gives NaN, a NaN second argument is ignored, else the larger |
| Series.AbsDiff | ichimoku_inflection_analysis.py:223 | `abs(a - b)` is defined exactly when both sides are, and is non-negative |
| Frames.TailTable | predict_model_enhanced_complete.py:92 | `df.tail(k)` keeps the column names, takes the tail of the bars and of every column, and stays aligned |
| Frames.FillNa | utils_indicators.py:160 | `fillna(v)` keeps the column names and fills each column cell by cell |
| Frames.FillNaDefinesAll | utils_indicators.py:160 | after `fillna` no cell is undefined, and defined cells are unchanged |
| Frames.Frame.SetColumn | predict_model_enhanced_complete.py:48 | `df[c] = values` replaces that column only, keeps the bars, and stays aligned |
| Frames.Frame.FillNaInPlace | predict_model_enhanced_complete.py:351 | `fillna(0, inplace=True)`: the new columns are `FillNa` of the old ones, and the bars are unchanged |
| IchimokuLines.RollMax | predict_model_enhanced_complete.py:48 | `rolling(w).max()` is defined exactly from row w - 1 on, and then is the largest of the w values ending at the row, and one of them |
| IchimokuLines.RollMin | predict_model_enhanced_complete.py:48 | `rolling(w).min()` is defined exactly from row w - 1 on, and then is the smallest of the w values ending at the row, and one of them |
| IchimokuLines.MidLine | predict_model_enhanced_complete.py:48-51 | (rolling high + rolling low) / 2 has the series' length, is defined exactly from row w - 1, and there is the midpoint of the highest high and the lowest low of the w bars ending at the row |
| IchimokuLines.ShiftForward | predict_model_enhanced_complete.py:54-57 | `shift(k)`: row i holds row i - k, undefined on the first k rows |
| IchimokuLines.ShiftBackward | predict_model_enhanced_complete.py:60 | `shift(-k)`: row i holds row i + k, undefined on the last k rows |
| IchimokuLines.TenkanLine | ichimoku_inflection_analysis.py:30-32 | the conversion line is defined exactly from row 8, and row i is the midpoint of the highest high and lowest low of bars i - 8 to i |
| IchimokuLines.KijunLine | ichimoku_inflection_analysis.py:35-37 | the base line is defined exactly from row 25, and row i is the midpoint of the highest high and lowest low of bars i - 25 to i |
| IchimokuLines.SpanALine | ichimoku_inflection_analysis.py:40 | leading span A is defined exactly from row 51 (25 + 26), and row i is (conversion + base) / 2 of row i - 26 |
| IchimokuLines.SpanBLine | ichimoku_inflection_analysis.py:43-45 | leading span B is defined exactly from row 77 (51 + 26), and row i is the midpoint of the highest high and lowest low of bars i - 77 to i - 26 |
| IchimokuLines.ChikouLine | ichimoku_inflection_analysis.py:48 | the lagging span is the close 26 rows later, defined exactly on all but the last 26 rows |
| IchimokuLines.WithIchimoku | predict_model_enhanced_complete.py:41-62 | the columns after the assignments: the five Ichimoku names are added, other columns are unchanged, and alignment is kept |
| IchimokuLines.WithIchimokuLines | ichimoku_inflection_analysis.py:25-50 | the five assigned columns are exactly the five lines |
| IchimokuLines.CentredMin | ichimoku_inflection_analysis.py:60 | `rolling(w, center=True).min()` is defined exactly when the centred window fits; it is the window's minimum and one of its values |
| IchimokuLines.CentredMax | ichimoku_inflection_analysis.py:63 | the same for the centred rolling max |
| IchimokuLines.SelectedSound | predict_model_enhanced_complete.py:70 | every row a boolean mask selects has a true entry |
| IchimokuLines.SelectedSorted | predict_model_enhanced_complete.py:70 | the selected rows are strictly increasing |
| IchimokuLines.SelectedComplete | predict_model_enhanced_complete.py:70 | every row with a true entry is selected |
| IchimokuLines.SignificanceMask | predict_model_enhanced_complete.py:69-71 | entry p is true exactly when row p survives `df[df.low == rolling_min].dropna()` |
| IchimokuLines.SignificantRows | predict_model_enhanced_complete.py:69-71 | the filter keeps rows of the frame only |
| IchimokuLines.SignificantRowsSelected | predict_model_enhanced_complete.py:69-71 | the filtered rows are the rows the mask selects |
| IchimokuLines.SignificantRowsSound | predict_model_enhanced_complete.py:69-71 | every kept row is significant |
| IchimokuLines.SignificantRowsSorted | predict_model_enhanced_complete.py:69-71 | the kept rows stay in row order |
| IchimokuLines.SignificantRowsComplete | predict_model_enhanced_complete.py:69-71 | every significant row is kept |
| IchimokuLines.SignificantRowInsideWindow | ichimoku_inflection_analysis.py:60-66 | a kept row has its whole centred window inside the frame |
| IchimokuLines.SignificantLowIsWindowMinimum | ichimoku_inflection_analysis.py:60-61 | a kept low is no higher than any low of its window |
| IchimokuLines.SignificantHighIsWindowMaximum | ichimoku_inflection_analysis.py:63-64 | a kept high is no lower than any high of its window |
| IchimokuLines.LagGapExcluded | predict_model_enhanced_complete.py:92-93 | in the last m rows of a frame with the lagging span, `dropna` keeps only rows at least 27 from the end |
| IchimokuLines.FoundRowPlacement | ichimoku_inflection_analysis.py:87-91 | a row found in the last m rows sits at least 27 rows before the end of the whole frame |
| Indicators.ValidateDataFrame | utils_indicators.py:9-31 | raises the empty-frame error exactly for a missing, row-less or column-less frame; accepts exactly when no required column is missing; names the missing ones otherwise |
| Indicators.BarFrameValidation | utils_indicators.py:135-136 | a bar frame fails the `close` check exactly when it is empty |
| Indicators.SmaColumn | utils_indicators.py:140-141 | `rolling(p).mean()` is defined exactly from row p - 1 on, and is the mean of the trailing window |
| Indicators.SmaWithinWindow | utils_indicators.py:141 | a moving average lies between the min and the max of its window |
| Indicators.Gains | utils_indicators.py:50 | the gains are non-negative |
| Indicators.Losses | utils_indicators.py:51 | the losses are non-negative |
| Indicators.GainsLossesSplitChange | utils_indicators.py:49-51 | gain minus loss is the day's change, at most one of them is non-zero, and both are 0 on the NaN first row |
| Indicators.RsiFormula | utils_indicators.py:56-57 | the RSI formula with `1e-10` lies in [0, 100), and is 0 exactly when the average gain is 0 |
| Indicators.RsiAt | utils_indicators.py:53-57 | the RSI at a row lies in [0, 100] |
| Indicators.RsiColumn | utils_indicators.py:34-61 | `calculate_rsi` keeps the length, is defined exactly from row period - 1 on, and lies in [0, 100] |
| Indicators.RsiNoEpsilonFormula | predict_model_enhanced_complete.py:329-330 | without the epsilon: NaN exactly for 0/0, 100 exactly when there are no losses and some gains, else in [0, 100] |
| Indicators.RsiNoEpsilonColumn | predict_model_enhanced_complete.py:326-330 | the enhanced RSI column keeps the length; defined cells are from row period - 1 on and in [0, 100] |
| Indicators.Alpha | utils_indicators.py:85-86 | the EMA smoothing factor 2 / (span + 1) lies in (0, 1] |
| Indicators.Ema | utils_indicators.py:85-88 | `ewm(span, adjust=False).mean()` keeps the length and follows the recursive EMA |
| Indicators.EmaAt | utils_indicators.py:85-88 | the `adjust=False` recursion: the first value, then `alpha·x_t + (1 - alpha)·e_(t-1)`; `EmaBetween` bounds it |
| Indicators.EmaBetween | utils_indicators.py:85-88 | the EMA stays between any bounds of its inputs |
| Indicators.MacdLine | utils_indicators.py:87 | the MACD line keeps the length |
| Indicators.MacdHistogram | utils_indicators.py:64-92 | `calculate_macd` returns a histogram as long as its input |
| Indicators.MacdOfConstantIsZero | utils_indicators.py:84-90 | a flat series has a zero MACD histogram everywhere |
| Indicators.AdjustedDenominator | predict_model_enhanced_complete.py:333-334 | the total weight of the `adjust=True` EMA is at least 1 |
| Indicators.AdjustedWeight | predict_model_enhanced_complete.py:333-334 | the newest value's share lies in (0, 1] |
| Indicators.AdjustedEmaBetween | predict_model_enhanced_complete.py:333-336 | the `adjust=True` EMA, a weighted mean, stays between any bounds of its inputs |
| Indicators.AdjustedEma | predict_model_enhanced_complete.py:333-336 | `ewm(span).mean()` keeps the length and follows the adjusted EMA at every row |
| Indicators.AdjustedEmaAt | predict_model_enhanced_complete.py:333-336 | the `adjust=True` EMA as the weighted mean with weights 1, beta, beta^2, … folded in one value at a time; `AdjustedEmaBetween` bounds it |
| Indicators.SampleVariance | utils_indicators.py:114 | the sample variance is non-negative |
| Indicators.RollingStd | utils_indicators.py:114 | `rolling(p).std()` is defined exactly from row p - 1 when p >= 2, and is non-negative |
| Indicators.Offset | utils_indicators.py:116-117 | middle ± k·std is defined exactly when both are |
| Indicators.BollingerBands | utils_indicators.py:95-121 | three bands as long as the input, with the middle band the rolling mean |
| Indicators.BollingerBandsOrdered | utils_indicators.py:113-119 | the bands are defined exactly from row p - 1 (never for p = 1), and lower <= middle <= upper for k >= 0 |
| Indicators.BandPosition | utils_indicators.py:157 | `(close - lower) / (upper - lower)` is defined exactly when both bands are and differ, and lies in [0, 1] for a close inside the bands |
| Indicators.BandPositions | utils_indicators.py:157 | the band-position column keeps the length |
| Indicators.MomentumAt | utils_indicators.py:150 | the momentum is positive exactly on a rise over the lag, and 0 exactly on no change |
| Indicators.MomentumColumn | utils_indicators.py:150 | `close / close.shift(5) - 1` is undefined exactly on the first lag rows, and is the momentum elsewhere |
| Indicators.WithSmas | utils_indicators.py:140-141 | the loop over the periods adds one `SMA_p` column per period and leaves other columns alone |
| Indicators.ConfiguredSmaKeys | utils_indicators.py:140 | the configured periods 5, 20, 60 give the columns `SMA_5`, `SMA_20` and `SMA_60` |
| Indicators.AssignIndicators | utils_indicators.py:144-157 | the seven assignments add `RSI`, `MACD`, `Momentum` and the four band columns with the given values, and leave other columns alone |
| Indicators.WithConfiguredSmas | utils_indicators.py:140-141 | the configured loop equals the three explicit assignments |
| Indicators.UtilsColumnsKeys | utils_indicators.py:139-157 | `add_technical_indicators` adds exactly the listed columns |
| Indicators.AssignIndicatorsAligned | utils_indicators.py:144-157 | assigning columns of the frame's length keeps the frame aligned |
| Indicators.UtilsColumnsSmas | utils_indicators.py:140-141 | the 5-, 20- and 60-day columns are the rolling means of the closes |
| Indicators.UtilsColumnsAligned | utils_indicators.py:139-157 | every column left is as long as the bars |
| Indicators.IndicatorColumnsComplete | utils_indicators.py:124-164 | after the indicators and `fillna`, every listed column is present, aligned and fully defined |
| Indicators.IndicatorColumnsSmas | utils_indicators.py:140-160 | each moving average is the rolling mean with its first p - 1 rows filled with 0 |
| Indicators.UtilsColumnsRsiMomentum | utils_indicators.py:144-150 | the RSI column is `calculate_rsi` of the closes with period 14, and the momentum is the 5-day momentum |
| Indicators.IndicatorColumnsMomentum | utils_indicators.py:150-160 | the momentum left is the 5-day momentum after `fillna(0)` |
| Indicators.FilledMomentumValues | utils_indicators.py:150-160 | the filled momentum is 0 on the first five rows and `close[i] / close[i-5] - 1` after |
| Indicators.IndicatorColumnsRsi | utils_indicators.py:144-160 | the RSI left is defined and in [0, 100] on every row |
| Indicators.AssignSmas | utils_indicators.py:140-141 | the loop method leaves the columns `WithSmas` says, and the bars are unchanged |
| Indicators.AssignInPlace | utils_indicators.py:144-157 | the assignment method leaves the columns `AssignIndicators` says |
| Indicators.AddTechnicalIndicators | utils_indicators.py:124-164 | returns the validation outcome (`Accepted` when validation is off); a failed validation leaves the frame unchanged; otherwise the columns become `IndicatorColumns` |
| EnhancedEngine.CalculateIchimokuIndicators | predict_model_enhanced_complete.py:41-62 | below 88 rows the frame is returned unchanged; otherwise the five lines are assigned |
| EnhancedEngine.FindSignificantLows | predict_model_enhanced_complete.py:64-71 | empty below 40 rows; the rows found exist |
| EnhancedEngine.FindSignificantLowsSpec | predict_model_enhanced_complete.py:64-71 | the rows found are exactly the significant lows, in row order |
| EnhancedEngine.LastRowsOf | predict_model_enhanced_complete.py:174-298 | the cells a rule reads at the last row satisfy the frame's guarantees |
| EnhancedEngine.AnalyzeRule13 | predict_model_enhanced_complete.py:174-197 | the `+=` method returns the D+13 strength |
| EnhancedEngine.Rule13Strength | predict_model_enhanced_complete.py:174-197 | the D+13 strength is the sum of 40 for the golden cross, 30 for the lagging span above the conversion line, 20 for a 5-row rise, capped at 100 by `min` (line 196); it lies in [0, 100], and `Rule13Range` states when each bonus is paid |
| EnhancedEngine.Rule13Range | predict_model_enhanced_complete.py:174-197 | the D+13 strength lies in [0, 90], and is 90 exactly when the golden cross, the lagging-span test and the 5-day rise all hold |
| EnhancedEngine.AnalyzeRule26 | predict_model_enhanced_complete.py:199-222 | the method returns the D+26 strength |
| EnhancedEngine.Rule26Strength | predict_model_enhanced_complete.py:199-222 | the D+26 strength is the sum of 50 above the cloud, 30 at the 26-row high, 20 with span A above span B, capped at 100; it lies in [0, 100], and `Rule26Range` states when each bonus is paid |
| EnhancedEngine.Rule26Range | predict_model_enhanced_complete.py:199-222 | the D+26 strength lies in [0, 100]; it is at most 70 when the close is below the 26-row high, and also when it is below the last bar's high |
| EnhancedEngine.AnalyzeRule42 | predict_model_enhanced_complete.py:224-246 | the method returns the D+42 strength |
| EnhancedEngine.Rule42Strength | predict_model_enhanced_complete.py:224-246 | the D+42 strength is the sum of 60 at the 60-row high, 25 for a rising span B, 15 for volume above 1.2 times its 10-row mean, capped at 100; it lies in [0, 100], and `Rule42Range` states when each bonus is paid |
| EnhancedEngine.Rule42Range | predict_model_enhanced_complete.py:224-246 | the D+42 strength lies in [0, 100], and is at least 60 exactly on a 60-day high |
| EnhancedEngine.AnalyzeRule51 | predict_model_enhanced_complete.py:248-275 | the method returns the D+51 strength |
| EnhancedEngine.Rule51Strength | predict_model_enhanced_complete.py:248-275 | the D+51 strength is the sum of the trend bonus of the 10-row change, 30 for a thick cloud, 20 for the lagging span above the cloud, capped at 100; it lies in [0, 100], and `Rule51Range` states when each bonus is paid |
| EnhancedEngine.Rule51Range | predict_model_enhanced_complete.py:248-275 | the D+51 strength lies in [0, 100]; the trend bonus is 50 exactly on a rise of more than 5% over 10 rows, and 0 exactly without a rise |
| EnhancedEngine.AnalyzeMajorRule | predict_model_enhanced_complete.py:277-298 | the method returns the major-rule strength |
| EnhancedEngine.MajorStrength | predict_model_enhanced_complete.py:277-298 | the major-day strength is one of -60, -30 and 10: -60 below 95% of the 10-row high, else -30 on a volume surge, else 10; `MajorOutcomes` states each case |
| EnhancedEngine.MajorOutcomes | predict_model_enhanced_complete.py:277-298 | the major rule yields -60, -30 or 10: -60 exactly below 95% of the 10-day high, -30 exactly on a volume surge otherwise |
| EnhancedEngine.AnalyzeGeneralRule | predict_model_enhanced_complete.py:300-313 | the method returns the general-rule strength |
| EnhancedEngine.GeneralStrength | predict_model_enhanced_complete.py:300-313 | the general strength is one of 30, 0 and -30: 30 on a 5-row rise over 2%, -30 on a fall over 2%; `GeneralOutcomes` states each case |
| EnhancedEngine.GeneralOutcomes | predict_model_enhanced_complete.py:300-313 | the general rule yields 30 exactly on a 5-day rise over 2%, -30 exactly on a fall over 2%, else 0 |
| EnhancedEngine.StatusOf | predict_model_enhanced_complete.py:148-170 | active exactly within 5 days of the checkpoint, approaching before, passed after |
| EnhancedEngine.RuleDispatch | predict_model_enhanced_complete.py:152-163 | days 13, 26, 42 and 51 have their own rules, 65 and 77 the major rule, and 9, 33 and 88 the general rule |
| EnhancedEngine.RuleStrengthBounds | predict_model_enhanced_complete.py:174-313 | every rule's strength lies in [-60, 100] |
| EnhancedEngine.SingleSignal | predict_model_enhanced_complete.py:135-172 | a signal carries its day count, checkpoint and status; strength 0 unless active, else the dispatched rule's strength |
| EnhancedEngine.ApplyRule | predict_model_enhanced_complete.py:152-163 | the dispatch method returns the strength of the checkpoint's rule |
| EnhancedEngine.AnalyzeSingleInflection | predict_model_enhanced_complete.py:135-172 | the method returns `SingleSignal` |
| EnhancedEngine.SignalsOver | predict_model_enhanced_complete.py:107-109 | one signal per checkpoint, in order |
| EnhancedEngine.Signals | predict_model_enhanced_complete.py:107-109 | nine signals, the k-th for the k-th checkpoint |
| EnhancedEngine.ActiveTotalBounds | predict_model_enhanced_complete.py:111-113 | with active strengths in [lo, hi], the total lies between count·lo and count·hi |
| EnhancedEngine.NoneActive | predict_model_enhanced_complete.py:111-119 | with no active signal the total is 0 |
| EnhancedEngine.OverallScoreBounds | predict_model_enhanced_complete.py:115-119 | the overall score (mean active strength, or 0) lies in [lo, hi] |
| EnhancedEngine.OverallScore | predict_model_enhanced_complete.py:115-119 | `overall_score` is the mean of the active strengths: times the number of active signals it gives their total, and it is 0 when none is active |
| EnhancedEngine.StrongSellUnreachable | predict_model_enhanced_complete.py:121-131 | as written the chain never gives STRONG_SELL; every score <= -50 gives SELL, and HOLD exactly in (-50, 50) |
| EnhancedEngine.RecommendationOf | predict_model_enhanced_complete.py:121-131 | the recommendation chain as written, with the `<= -50` test before the `<= -70` one, never gives STRONG_SELL; `StrongSellUnreachable` states its bands |
| EnhancedEngine.AnalysedTable | predict_model_enhanced_complete.py:89 | the analysed frame keeps the caller's bars |
| EnhancedEngine.TableAnalysis | predict_model_enhanced_complete.py:89-133 | the report of a frame with the Ichimoku columns carries the last close |
| EnhancedEngine.InflectionAnalysis | predict_model_enhanced_complete.py:73-133 | the report carries the last close (0 when empty); below 88 rows it is the insufficient-data warning with score 0 and HOLD |
| EnhancedEngine.AnalyzeInflectionSignals | predict_model_enhanced_complete.py:73-133 | the method changes the caller's frame as `calculate_ichimoku_indicators` does and returns `InflectionAnalysis` |
| EnhancedEngine.AnalyzeTable | predict_model_enhanced_complete.py:91-133 | the method returns `TableAnalysis` |
| EnhancedEngine.ScoreSignals | predict_model_enhanced_complete.py:103-133 | the method returns the report of the nine signals |
| EnhancedEngine.ScoreCheckpoints | predict_model_enhanced_complete.py:107-113 | the loop returns the signals in order, their active total and their active count |
| EnhancedEngine.LatestSignificantLow | predict_model_enhanced_complete.py:99 | the last row found is significant, and no later row is |
| EnhancedEngine.ChosenLowIsLatest | predict_model_enhanced_complete.py:91-99 | the chosen low is the latest significant low of the last 88 rows |
| EnhancedEngine.DaysSinceLowRange | predict_model_enhanced_complete.py:91-100 | the chosen low is 26 to 77 days old |
| EnhancedEngine.OldLowSignals | predict_model_enhanced_complete.py:148 | with a low 26 to 77 days old, D+9, D+13 and D+88 are not active |
| EnhancedEngine.SignalsOverallBounds | predict_model_enhanced_complete.py:115-119 | the overall score of the nine signals lies in [-60, 100] |
| EnhancedEngine.NeverActiveDays | predict_model_enhanced_complete.py:73-133 | along the analysis D+9, D+13 and D+88 are never active, and the overall score lies in [-60, 100] |
| EnhancedEngine.Minus | predict_model_enhanced_complete.py:335 | the element-wise difference `exp1 - exp2` |
| EnhancedEngine.EnhancedValuesOf | predict_model_enhanced_complete.py:320-348 | every computed indicator column is as long as the bars |
| EnhancedEngine.AssignEnhanced | predict_model_enhanced_complete.py:321-348 | the assignments add exactly the listed columns and leave other columns alone |
| EnhancedEngine.AssignEnhancedComplete | predict_model_enhanced_complete.py:321-351 | after the assignments and `fillna(0)` every listed column is present, aligned and fully defined |
| EnhancedEngine.EnhancedColumnsComplete | predict_model_enhanced_complete.py:318-352 | after `calculate_technical_indicators`, every listed column is present, the frame is aligned and every cell is defined |
| EnhancedEngine.CalculateTechnicalIndicators | predict_model_enhanced_complete.py:318-352 | the method leaves the columns `EnhancedColumns` says, and the bars are unchanged |
| EnhancedEngine.FlatMacdIsZero | predict_model_enhanced_complete.py:333-337 | on a flat close series the MACD line, the signal and the histogram are 0 |
| EnhancedEngine.CombinedScoreRange | predict_model_enhanced_complete.py:609-616 | an ML score in [0, 100] and an inflection score in [-100, 100] combine into [-100, 100] |
| EnhancedEngine.FinalStrongSellUnreachable | predict_model_enhanced_complete.py:620-639 | as written STRONG_SELL is never returned; every score <= -30 gives (SELL, MEDIUM) |
| EnhancedEngine.FinalRecommendationAsWritten | predict_model_enhanced_complete.py:620-639 | the combiner's threshold chain as written, with the `<= -30` test before the `<= -60` one, never gives STRONG_SELL; `FinalStrongSellUnreachable` states its bands |
| EnhancedEngine.FinalStrongSellWitness | predict_model_enhanced_complete.py:613-635 | ML 0 and inflection -50 combine to -80, which as written gives SELL |
| EnhancedEngine.FinalRecommendation | predict_model_enhanced_complete.py:620-639 | the corrected chain: STRONG_SELL exactly <= -60, SELL in (-60, -30], HOLD in (-30, 30), BUY in [30, 60), STRONG_BUY >= 60 |
| EnhancedEngine.FinalRecommendationAgrees | predict_model_enhanced_complete.py:620-639 | the corrected chain equals the chain as written above -60, and gives (STRONG_SELL, HIGH) at or below it |
| EnhancedEngine.CombineMlAndInflection | predict_model_enhanced_complete.py:608-639 | `combine_ml_and_inflection` as written: the score is the weighted combination; STRONG_SELL is never returned, every score <= -30 gives (SELL, MEDIUM), and STRONG_BUY, BUY, SELL and HOLD hold exactly on [60, ∞), [30, 60), (-∞, -30] and (-30, 30) |
| EnhancedEngine.CombineMlAndInflectionCorrected | predict_model_enhanced_complete.py:608-639 | the combiner with the corrected chain: the same score, the decision of `FinalRecommendation`, and the same result as the combiner as written for every score above -60 |
| EnhancedEngine.CombinedOfEngineAsWritten | predict_model_enhanced_complete.py:608-639 | fed by the engine, the combined score lies in [-84, 100]; the combiner as written never answers STRONG_SELL, and answers SELL exactly from -30 down, the reachable range [-84, -60] included |
| EnhancedEngine.CombinedOfEngine | predict_model_enhanced_complete.py:608-639 | fed by the engine, the corrected combiner's score lies in [-84, 100], and it answers STRONG_SELL exactly from -60 down |
| IchimokuAnalysis.CalculateIchimokuIndicators | ichimoku_inflection_analysis.py:25-50 | the method assigns the five lines and keeps the bars |
| IchimokuAnalysis.FindSignificantPoints | ichimoku_inflection_analysis.py:52-66 | the rows found exist |
| IchimokuAnalysis.FindSignificantPointsSpec | ichimoku_inflection_analysis.py:52-66 | the rows found are exactly the significant lows (highs), in row order |
| IchimokuAnalysis.SignificantPointsAreExtremes | ichimoku_inflection_analysis.py:58-64 | a low found is the lowest low of its window, and a high found the highest high |
| IchimokuAnalysis.LastRowsOf | ichimoku_inflection_analysis.py:145-267 | the cells a rule reads at the last row satisfy the frame's guarantees |
| IchimokuAnalysis.ClosingHigh | ichimoku_inflection_analysis.py:182 | `close.tail(n).max()` is at least the last close, and equals it exactly when no close of the last n exceeds it |
| IchimokuAnalysis.AnalyzeRule13 | ichimoku_inflection_analysis.py:145-168 | the method returns the D+13 strength |
| IchimokuAnalysis.Rule13Strength | ichimoku_inflection_analysis.py:145-168 | the D+13 strength is the sum of 30 for the golden cross, 20 for the lagging span above the conversion line, 15 for a 5-row rise, capped at 100; it lies in [0, 100], and `Rule13Range` states when each bonus is paid |
| IchimokuAnalysis.Rule13Range | ichimoku_inflection_analysis.py:145-168 | the D+13 strength lies in [0, 65], and is 65 exactly when all three signals hold |
| IchimokuAnalysis.AnalyzeRule26 | ichimoku_inflection_analysis.py:169-190 | the method returns the D+26 strength |
| IchimokuAnalysis.Rule26Strength | ichimoku_inflection_analysis.py:169-190 | the D+26 strength is the sum of 40 above the cloud, 30 at the 26-row closing high, 30 with span A above span B, capped at 100; it lies in [0, 100], and `Rule26Range` states when each bonus is paid |
| IchimokuAnalysis.Rule26Range | ichimoku_inflection_analysis.py:169-190 | the D+26 strength lies in [0, 100]; it is 100 exactly when above the cloud, at the 26-day closing high and with span A above B; it is at most 70 off the high |
| IchimokuAnalysis.AnalyzeRule42 | ichimoku_inflection_analysis.py:191-211 | the method returns the D+42 strength |
| IchimokuAnalysis.Rule42Strength | ichimoku_inflection_analysis.py:191-211 | the D+42 strength is the sum of 50 at the 60-row closing high, 30 for a rising span B, 20 for volume above its 10-row mean, capped at 100; it lies in [0, 100], and `Rule42Range` states when each bonus is paid |
| IchimokuAnalysis.Rule42Range | ichimoku_inflection_analysis.py:191-211 | the D+42 strength lies in [0, 100]; it is 100 exactly at the 60-day closing high with span B rising and volume above its mean; it is at most 50 off the high |
| IchimokuAnalysis.AnalyzeRule51 | ichimoku_inflection_analysis.py:212-234 | the method returns the D+51 strength |
| IchimokuAnalysis.Rule51Strength | ichimoku_inflection_analysis.py:212-234 | the D+51 strength is the sum of 40 on a 10-row rise over 5%, 35 for a thick cloud, 25 for the lagging span above the cloud, capped at 100; it lies in [0, 100], and `Rule51Range` states when each bonus is paid |
| IchimokuAnalysis.Rule51Range | ichimoku_inflection_analysis.py:212-234 | the D+51 strength lies in [0, 100], and is at least 40 with a 10-day rise over 5%; a strength of 40 or more needs that rise or a thick cloud with the lagging span above it |
| IchimokuAnalysis.AnalyzeMajorRule | ichimoku_inflection_analysis.py:235-253 | the method returns the major-rule strength |
| IchimokuAnalysis.MajorStrength | ichimoku_inflection_analysis.py:235-253 | the major-day strength is one of -50, -30, 20 and 0, and 0 on every day other than 65 and 77; `MajorOutcomes` states each case |
| IchimokuAnalysis.MajorOutcomes | ichimoku_inflection_analysis.py:235-253 | -50 exactly below 95% of the 5-day high, -30 exactly on a volume surge otherwise, else 20 |
| IchimokuAnalysis.AnalyzeGeneralRule | ichimoku_inflection_analysis.py:255-267 | the method returns the general-rule strength |
| IchimokuAnalysis.GeneralStrength | ichimoku_inflection_analysis.py:255-267 | the general strength is one of 20, 0 and -20: 20 on a 5-row rise over 2%, -20 on a fall over 2%; `GeneralOutcomes` states each case |
| IchimokuAnalysis.GeneralOutcomes | ichimoku_inflection_analysis.py:255-267 | 20 exactly on a 5-day rise over 2%, -20 exactly on a fall over 2%, else 0 |
| IchimokuAnalysis.TargetRow | ichimoku_inflection_analysis.py:271-272 | `min(low_idx + target, len - 1)`: a row of the frame, the sum when it fits, else the last row |
| IchimokuAnalysis.PassedStrength | ichimoku_inflection_analysis.py:269-287 | 80 exactly when the last close is more than 5% above the close at the checkpoint row, -20 exactly when it is not above, else 40 |
| IchimokuAnalysis.StatusOf | ichimoku_inflection_analysis.py:114-141 | never pending; approaching before checkpoint - 3, active within 3 days, passed after |
| IchimokuAnalysis.RuleDispatch | ichimoku_inflection_analysis.py:124-135 | days 13, 26, 42 and 51 have their own rules, 65 and 77 the major rule, the rest the general rule |
| IchimokuAnalysis.RuleStrengthBounds | ichimoku_inflection_analysis.py:145-267 | every rule's strength lies in [-50, 100] |
| IchimokuAnalysis.ApplyRule | ichimoku_inflection_analysis.py:124-135 | the dispatch method returns the rule strength |
| IchimokuAnalysis.PointAnalysis | ichimoku_inflection_analysis.py:102-143 | carries the day count, checkpoint and status; 0 when approaching, the rule strength when active, the result measure when passed |
| IchimokuAnalysis.AnalyzeInflectionPoint | ichimoku_inflection_analysis.py:102-143 | the method returns `PointAnalysis` |
| IchimokuAnalysis.AnalysesOver | ichimoku_inflection_analysis.py:94-98 | one analysis per checkpoint |
| IchimokuAnalysis.AnalysesOverAt | ichimoku_inflection_analysis.py:94-98 | the k-th analysis is that of the k-th checkpoint |
| IchimokuAnalysis.AnalysePoints | ichimoku_inflection_analysis.py:94-98 | the loop method returns `AnalysesOver` |
| IchimokuAnalysis.AnalysedTable | ichimoku_inflection_analysis.py:84 | the analysed frame keeps the caller's bars |
| IchimokuAnalysis.LowOf | ichimoku_inflection_analysis.py:90-91 | row p of the last 88 rows stands at row len - 88 + p of the frame, with the frame's closes |
| IchimokuAnalysis.TableSignals | ichimoku_inflection_analysis.py:84-100 | a frame of 88 rows is scored and carries the last close |
| IchimokuAnalysis.InflectionSignals | ichimoku_inflection_analysis.py:68-100 | the report carries the last close; it is the not-enough-data warning exactly below 88 rows |
| IchimokuAnalysis.CalculateInflectionSignals | ichimoku_inflection_analysis.py:68-100 | the method changes the caller's frame by the Ichimoku assignment (from 88 rows on) and returns `InflectionSignals` |
| IchimokuAnalysis.SignalsOfTable | ichimoku_inflection_analysis.py:84-100 | the method returns `TableSignals` |
| IchimokuAnalysis.LatestSignificantLow | ichimoku_inflection_analysis.py:90 | the last row found is significant, and no later row is |
| IchimokuAnalysis.ChosenLowIsLatest | ichimoku_inflection_analysis.py:87-90 | the chosen low is the latest significant low of the last 88 rows |
| IchimokuAnalysis.DaysSinceLowRange | ichimoku_inflection_analysis.py:87-91 | the chosen low is 26 to 77 days old |
| IchimokuAnalysis.AgedStatuses | ichimoku_inflection_analysis.py:114-141 | with a low 26 to 77 days old, D+9 and D+13 have passed and D+88 is approaching |
| IchimokuAnalysis.EarlyDaysNeverActive | ichimoku_inflection_analysis.py:68-100 | along the analysis D+9 and D+13 are always passed and D+88 approaching |
| IchimokuAnalysis.ActiveStrengthsMembers | ichimoku_inflection_analysis.py:304-310 | a value is averaged exactly when it is the strength of an active analysis |
| IchimokuAnalysis.ActiveStrengthsBounds | ichimoku_inflection_analysis.py:304-310 | active strengths in [lo, hi] give averaged values in [lo, hi] |
| IchimokuAnalysis.InflectionScoreBounds | ichimoku_inflection_analysis.py:309-311 | the inflection score (mean, or 0) lies in [lo, hi] when lo <= 0 <= hi |
| IchimokuAnalysis.InflectionScore | ichimoku_inflection_analysis.py:309-311 | `inflection_score` is the mean of the active strengths: times their number it gives their sum, and it is 0 when none is active |
| IchimokuAnalysis.ActionPartition | ichimoku_inflection_analysis.py:320-335 | as written STRONG_SELL is never chosen; STRONG_BUY >= 70, BUY in [50, 70), SELL <= -50, HOLD otherwise |
| IchimokuAnalysis.ActionOf | ichimoku_inflection_analysis.py:320-335 | the action chain as written, with the `<= -50` test before the `<= -70` one, never gives STRONG_SELL; `ActionPartition` states its bands |
| IchimokuAnalysis.GenerateCombinedSignal | ichimoku_inflection_analysis.py:289-337 | the combined score is 60% ML plus 40% inflection score, and the action is the chain's |
| IchimokuAnalysis.ActiveStrengthsOver | ichimoku_inflection_analysis.py:102-143 | every active strength lies in [-50, 100] |
| IchimokuAnalysis.ActiveStrengthsOfSignals | ichimoku_inflection_analysis.py:68-143 | every active strength of the analysis lies in [-50, 100] |
| IchimokuAnalysis.CombinedBounds | ichimoku_inflection_analysis.py:309-335 | with ML in [0, 100] the combined score lies in [-20, 100], so neither SELL nor STRONG_SELL is chosen |
| IchimokuAnalysis.CombinedOfAnalysis | ichimoku_inflection_analysis.py:289-337 | the same bound for any frame the analysis reads |
| InflectionAnalyzer.HighestHighBounds | inflection_analyzer.py:39-41 | Python's `max` of the highs bounds every high and is one of them |
| InflectionAnalyzer.LowestLowBounds | inflection_analyzer.py:39-41 | Python's `min` of the lows is below every low and is one of them |
| InflectionAnalyzer.HighestHigh | inflection_analyzer.py:39-41 | Python's `max` over the highs of a run of bars, taken element by element; `HighestHighBounds` proves it bounds every high and is one of them |
| InflectionAnalyzer.LowestLow | inflection_analyzer.py:39-41 | Python's `min` over the lows of a run of bars; `LowestLowBounds` proves it is below every low and is one of them |
| InflectionAnalyzer.CalculateIchimoku | inflection_analyzer.py:25-71 | None exactly below 52 bars; the cloud's bottom, top and thickness are those of the two spans; the current price is the last close and the lagging value the close 26 bars back; `CalculateIchimokuLines` states the line values |
| InflectionAnalyzer.CalculateIchimokuLines | inflection_analyzer.py:38-54 | the conversion line is the midpoint of the last 9 bars, the base line of the last 26, span B of the last 52, and span A the mean of the conversion and base lines |
| InflectionAnalyzer.MidOf | inflection_analyzer.py:38-41 | (highest high + lowest low) / 2 of a run of bars; `MidOfWindow` states what the two extremes are |
| InflectionAnalyzer.MidOfWindow | inflection_analyzer.py:38-41 | twice the midpoint of a run of bars is a high that bounds every high of the run plus a low that bounds every low of it, both from bars of the run |
| InflectionAnalyzer.AboveCloudMeansAboveBothSpans | inflection_analyzer.py:94-96 | above the cloud exactly when above both leading spans |
| InflectionAnalyzer.EarliestMin | inflection_analyzer.py:82 | `min(..., key=low)`: the index of a smallest element with none smaller before it |
| InflectionAnalyzer.LowWindow | inflection_analyzer.py:80 | the window is the last `lookback` bars, and empty only for empty data |
| InflectionAnalyzer.FindLowestPoint | inflection_analyzer.py:73-83 | None (Python's `ValueError`) exactly for an empty window |
| InflectionAnalyzer.LowestPointIsEarliestMinimum | inflection_analyzer.py:80-83 | the result is the earliest bar of the window with the smallest low |
| InflectionAnalyzer.LowestInLookback | inflection_analyzer.py:73-83 | with data, the 120-bar low exists and is no higher than any low of the last 120 bars |
| InflectionAnalyzer.DaysSinceLow | inflection_analyzer.py:85-88 | the day count is non-negative exactly when the low is not after the current date |
| InflectionAnalyzer.DaysSinceLowOfBar | inflection_analyzer.py:85-88 | with increasing dates the day count from a bar is non-negative, and 0 exactly for the last bar |
| InflectionAnalyzer.AboveWindowHigh | inflection_analyzer.py:130 | a value exceeds the max of a window exactly when it exceeds each high |
| InflectionAnalyzer.StrengthOf | inflection_analyzer.py:475 | the strength read from a rating, 0 without one |
| InflectionAnalyzer.BreakoutIsStrict | inflection_analyzer.py:196 | the last high beats the k highs before it exactly when it beats each |
| InflectionAnalyzer.Rating9 | inflection_analyzer.py:108-157 | insufficient data exactly below 52 bars; never an empty window |
| InflectionAnalyzer.Score9 | inflection_analyzer.py:120-149 | the `+=` method returns the day-9 strength |
| InflectionAnalyzer.Strength9 | inflection_analyzer.py:120-149 | the day-9 strength as the sum of its bonuses: 20 on days 7 to 11 plus 40 more on a 9-bar breakout, 25 for a rising conversion line, 15 for a conversion line above the 10-bar mean close; it lies in [0, 100], and `Strength9Range` gives its labels |
| InflectionAnalyzer.Analyze9 | inflection_analyzer.py:108-157 | the method returns `Rating9` |
| InflectionAnalyzer.Strength9Range | inflection_analyzer.py:108-157 | the day-9 strength lies in [0, 100], is bullish exactly from 60, and outside days 7..11 it is at most 40 and neutral |
| InflectionAnalyzer.Breakout9Strict | inflection_analyzer.py:129-131 | the 9-day breakout beats each of the 8 previous highs |
| InflectionAnalyzer.Rating13 | inflection_analyzer.py:159-211 | insufficient data exactly below 52 bars; never an empty window |
| InflectionAnalyzer.Score13 | inflection_analyzer.py:171-203 | the method returns the day-13 strength |
| InflectionAnalyzer.Strength13 | inflection_analyzer.py:171-203 | the day-13 strength as the uncapped sum of 25 on days 11 to 15, 40 for the golden cross plus 20 if it just crossed, 20 for a 13-bar high, 15 for the lagging span above the price; it lies in [0, 120] |
| InflectionAnalyzer.Analyze13 | inflection_analyzer.py:159-211 | the method returns `Rating13` |
| InflectionAnalyzer.Strength13Range | inflection_analyzer.py:159-211 | the day-13 strength is uncapped in [0, 120], 120 exactly when all five signals hold, and lower without a golden cross |
| InflectionAnalyzer.Label7050Bands | inflection_analyzer.py:207 | strongly bullish exactly from 70, bullish in [50, 70), neutral below 50 |
| InflectionAnalyzer.Rating26 | inflection_analyzer.py:213-259 | insufficient data exactly below 52 bars; never an empty window |
| InflectionAnalyzer.Score26 | inflection_analyzer.py:226-251 | the method returns the day-26 strength |
| InflectionAnalyzer.Strength26 | inflection_analyzer.py:226-251 | the day-26 strength as the sum of 25 on days 23 to 29, 35 above the cloud, 25 for a 26-bar high, 15 for aligned lines; it lies in [0, 100] |
| InflectionAnalyzer.Analyze26 | inflection_analyzer.py:213-259 | the method returns `Rating26` |
| InflectionAnalyzer.Strength26Range | inflection_analyzer.py:213-259 | the day-26 strength lies in [0, 100] |
| InflectionAnalyzer.NewHigh26IsWindowMaximum | inflection_analyzer.py:243 | the 26-day new-high test holds exactly when no high of the last 26 bars exceeds the last one |
| InflectionAnalyzer.GainTier33Exclusive | inflection_analyzer.py:288-291 | 30 exactly over 15%, 20 exactly in (10, 15], else 0 |
| InflectionAnalyzer.SinceLowEmpty | inflection_analyzer.py:283 | `data[-days:]` is empty only for empty data or a negative count that reaches past the start |
| InflectionAnalyzer.WindowLowPositive | inflection_analyzer.py:283-285 | the window's lowest low is positive |
| InflectionAnalyzer.Rating33 | inflection_analyzer.py:261-312 | insufficient data exactly below 52 bars; an empty window exactly in the `min([])` case |
| InflectionAnalyzer.Score33 | inflection_analyzer.py:274-304 | the method returns the day-33 strength |
| InflectionAnalyzer.Strength33 | inflection_analyzer.py:274-304 | the day-33 strength as the sum of 20 on days 30 to 36, the gain tier over the lowest low since the low, 25 for a cloud thicker than 3% of the price, 25 for volume above 1.5 times its mean; it lies in [0, 100], and `Strength33Range` gives its labels |
| InflectionAnalyzer.Analyze33 | inflection_analyzer.py:261-312 | the method returns `Rating33` |
| InflectionAnalyzer.Strength33Range | inflection_analyzer.py:261-312 | the day-33 strength lies in [0, 100] and is never neutral |
| InflectionAnalyzer.RisingCloses | inflection_analyzer.py:349 | the rising-day count is at most len - 1 |
| InflectionAnalyzer.Rating42 | inflection_analyzer.py:314-369 | insufficient data exactly below 52 bars; never an empty window |
| InflectionAnalyzer.CountRisingDays | inflection_analyzer.py:348-349 | the counting loop returns `RisingCloses` |
| InflectionAnalyzer.Score42 | inflection_analyzer.py:327-361 | the method returns the day-42 strength |
| InflectionAnalyzer.Strength42 | inflection_analyzer.py:327-361 | the day-42 strength as the sum of 20 on days 39 to 45, 40 for a 60-bar breakout, 25 for at least 10 rising days of 15, 15 for volume above twice its mean; it lies in [0, 100], and `Strength42Range` bounds the rising-day count |
| InflectionAnalyzer.Analyze42 | inflection_analyzer.py:314-369 | the method returns `Rating42` |
| InflectionAnalyzer.Strength42Range | inflection_analyzer.py:314-369 | the day-42 strength lies in [0, 100]; there are at most 15 rising days |
| InflectionAnalyzer.Breakout60Strict | inflection_analyzer.py:337-338 | the 60-day breakout beats each of the 59 previous highs |
| InflectionAnalyzer.Label42Bands | inflection_analyzer.py:365 | very strong from 80, strong in [60, 80), bullish below |
| InflectionAnalyzer.GainTier51Exclusive | inflection_analyzer.py:399-402 | 35 exactly over 30%, 25 exactly in (20, 30], else 0 |
| InflectionAnalyzer.Window51 | inflection_analyzer.py:393 | `data[-days:] if days <= len(data) else data` is the same window as `data[-days:]` |
| InflectionAnalyzer.Rating51 | inflection_analyzer.py:371-419 | insufficient data exactly below 52 bars; an empty window exactly in the `min([])` case |
| InflectionAnalyzer.Score51 | inflection_analyzer.py:384-411 | the method returns the day-51 strength |
| InflectionAnalyzer.Strength51 | inflection_analyzer.py:384-411 | the day-51 strength as the sum of 20 on days 47 to 55, the gain tier over the window's lowest low, 25 for a cloud thicker than 5% of the price, 20 for the lagging span above the price; it lies in [0, 100], and `Strength51Range` gives its labels |
| InflectionAnalyzer.Analyze51 | inflection_analyzer.py:371-419 | the method returns `Rating51` |
| InflectionAnalyzer.Strength51Range | inflection_analyzer.py:371-419 | the day-51 strength lies in [0, 100], labelled at least strongly bullish |
| InflectionAnalyzer.Gate | inflection_analyzer.py:454-470 | every gate is at least 7 days |
| InflectionAnalyzer.StepsBuildGatedAll | inflection_analyzer.py:452-470 | the six gated steps from the empty table build the gated list |
| InflectionAnalyzer.Collect9 | inflection_analyzer.py:454-455 | checkpoint 9 is added exactly from day 7 |
| InflectionAnalyzer.Collect13 | inflection_analyzer.py:457-458 | checkpoint 13 is added exactly from day 11 |
| InflectionAnalyzer.Collect26 | inflection_analyzer.py:460-461 | checkpoint 26 is added exactly from day 23 |
| InflectionAnalyzer.Collect33 | inflection_analyzer.py:463-464 | checkpoint 33 is added exactly from day 30 |
| InflectionAnalyzer.Collect42 | inflection_analyzer.py:466-467 | checkpoint 42 is added exactly from day 39 |
| InflectionAnalyzer.Collect51 | inflection_analyzer.py:469-470 | checkpoint 51 is added exactly from day 47 |
| InflectionAnalyzer.CollectInflections | inflection_analyzer.py:452-470 | the method builds `InflectionsFor` |
| InflectionAnalyzer.DaysOf | inflection_analyzer.py:474 | the checkpoint days of a table, in order |
| InflectionAnalyzer.GatedAllCases | inflection_analyzer.py:454-470 | the table written out for each range of day counts |
| InflectionAnalyzer.GatedAllDays | inflection_analyzer.py:454-470 | the analysed days are exactly those an independent filter keeps: the rated days whose gate is reached |
| InflectionAnalyzer.RatedDaysIncreasing | inflection_analyzer.py:13-23 | the rated days 9..51 increase |
| InflectionAnalyzer.ReachedDaysIncreasing | inflection_analyzer.py:454-470 | the filter keeps an increasing list increasing, and keeps only its elements |
| InflectionAnalyzer.GatedAllIncreasing | inflection_analyzer.py:452-474 | the table is in strictly increasing day order, which is the order `dict.items()` gives |
| InflectionAnalyzer.GatedCarries | inflection_analyzer.py:454-470 | a gated checkpoint has reached its gate and carries its own day's rating |
| InflectionAnalyzer.GatedAllRatings | inflection_analyzer.py:454-470 | every analysed checkpoint has reached its gate and carries its own day's rating |
| InflectionAnalyzer.ReachedDaysSnoc | inflection_analyzer.py:454-470 | the filter of one more point adds it exactly when its gate is reached |
| InflectionAnalyzer.ReachedRatedDays | inflection_analyzer.py:454-470 | the filter over the rated days adds each day exactly when its gate is reached |
| InflectionAnalyzer.DaysOfGated | inflection_analyzer.py:454-470 | one gated step contributes its day exactly when its gate is reached |
| InflectionAnalyzer.GatedAllRated | inflection_analyzer.py:454-470 | when all six rules rate, so does every analysed checkpoint |
| InflectionAnalyzer.InflectionsRated | inflection_analyzer.py:440-470 | inside the analysis every checkpoint is rated: neither the too-few-bars nor the empty-window result occurs |
| InflectionAnalyzer.ActiveOfMembers | inflection_analyzer.py:472-482 | a signal is active exactly when it comes from a checkpoint of strength >= 60, with its day, label and strength |
| InflectionAnalyzer.ActiveOfOrdered | inflection_analyzer.py:472-482 | for increasing checkpoint days, the active days strictly increase |
| InflectionAnalyzer.SelectActive | inflection_analyzer.py:472-482 | the loop method returns `ActiveOf` |
| InflectionAnalyzer.AnalyzeAll | inflection_analyzer.py:421-494 | refused exactly below 52 bars |
| InflectionAnalyzer.LowPositive | inflection_analyzer.py:490 | the 120-bar low of a positive series exists and is positive, so the gain divides safely |
| InflectionAnalyzer.AnalyzeAllInflections | inflection_analyzer.py:421-494 | the method returns `AnalyzeAll` |
| InflectionAnalyzer.AnalyzeAllLow | inflection_analyzer.py:444-490 | the price is the last close, the day count runs from the low's date, and the low is below every low of the last 120 bars |
| InflectionAnalyzer.AnalyzeAllCheckpoints | inflection_analyzer.py:452-482 | the table holds exactly the reached rated days, increasing and all rated; active signals have strength >= 60 and increase |
| SymbolReport.SignificantIn | analyze_inflection_005930.py:32 | the candidate rows lie in [window, hi) |
| SymbolReport.IsLocalMin | analyze_inflection_005930.py:32-42 | no bar within `window` rows of row i has a strictly lower low; an equal low does not break the inner loop |
| SymbolReport.SignificantLows | analyze_inflection_005930.py:28-49 | the significant lows lie in rows [window, len - window), and are exactly the local minima there (`SignificantLowsFacts`) |
| SymbolReport.LowsOf | analyze_inflection_005930.py:43-47 | one low record per row |
| SymbolReport.LowsOfSnoc | analyze_inflection_005930.py:43-47 | appending a row appends its record `{index, date, price}` |
| SymbolReport.FindSignificantLows | analyze_inflection_005930.py:28-49 | the nested loop with `break` returns the records of `SignificantLows`, whose rows exist |
| SymbolReport.SignificantInMembers | analyze_inflection_005930.py:32-42 | a row is found exactly when it is a candidate and no row within `window` has a strictly lower low |
| SymbolReport.SignificantInIncreasing | analyze_inflection_005930.py:32 | the lows come in strictly increasing row order |
| SymbolReport.SignificantLowsFacts | analyze_inflection_005930.py:28-49 | exactly the local minima of rows [window, len - window), increasing, and none below 2·window + 1 bars |
| SymbolReport.LatestLowAge | analyze_inflection_005930.py:75-76 | the latest low is at least `window` rows before the last row |
| SymbolReport.StatusOf | analyze_inflection_005930.py:95-104 | the status is the band the offset lies in, and no other band holds |
| SymbolReport.PositionsFor | analyze_inflection_005930.py:92-104 | one row per inflection day, with its offset and status |
| SymbolReport.PositionTable | analyze_inflection_005930.py:92-106 | the loop method returns `PositionsFor` |
| SymbolReport.DetailedDays | analyze_inflection_005930.py:113-117 | the loop method returns the inflection days within 3 days |
| SymbolReport.NearDays | analyze_inflection_005930.py:113-117 | the inflection days within three days of the day count, in order; `NearDaysMembers` states membership both ways |
| SymbolReport.NearDaysMembers | analyze_inflection_005930.py:113-117 | a day is detailed exactly when it is an inflection day with offset in [-3, 3] |
| SymbolReport.DetailedVersusStatus | analyze_inflection_005930.py:95-116 | the detail test is the in-zone band plus the offsets -3 and 3, which count as approaching and just passed |
| SymbolReport.AdviceFor | analyze_inflection_005930.py:189-204 | a window is chosen only when the day count lies in it; waiting exactly outside all windows; the window is unique |
| SymbolReport.TierOf | analyze_inflection_005930.py:208-215 | overheated exactly above 10%, rising in (5, 10], early rise in (0, 5], retesting at or below 0 |
| SymbolReport.TierMonotone | analyze_inflection_005930.py:208-215 | a higher gain never gets a lower tier |
| SymbolReport.PricePosition | analyze_inflection_005930.py:179 | division by zero exactly when high equals low; otherwise >= 0 exactly at or above the low and <= 100 exactly at or below the high |
| SymbolReport.PositionBounds | analyze_inflection_005930.py:179 | the percentage bounds of the position formula |
| SymbolReport.PricePositionIsPercentage | analyze_inflection_005930.py:174-179 | on well-formed bars the last close lies within the 20-bar range, so the position lies in [0, 100] |
| SymbolReport.RecommendAction | analyze_inflection_005930.py:172-215 | fails exactly on a flat 20-bar range; otherwise gives the day window's advice and the gain tier |
| SymbolReport.AnalyzeSymbol | analyze_inflection_005930.py:51-124 | no data exactly for an empty series, and the no-lows return exactly when the scan finds none |
| SymbolReport.PositivePricesHaveNonZeroLow | analyze_inflection_005930.py:84 | positive prices never divide by zero, and a failure is then only a flat range |
| SymbolReport.AnalyzeInflection | analyze_inflection_005930.py:51-124 | the method, step by step as the script runs, returns `AnalyzeSymbol` |
| SymbolReport.ReportLow | analyze_inflection_005930.py:68-84 | the report's low is the latest significant low, and the day count is its distance to the last row, at least 20 |
| SymbolReport.ReportDetailed | analyze_inflection_005930.py:113-117 | the detailed days are the inflection days within 3 days of the day count |
| SymbolReport.ReportPositions | analyze_inflection_005930.py:92-104 | the status table has one row per inflection day, in order, with the offset and its status |
| SymbolReport.ReportRecommendation | analyze_inflection_005930.py:124 | the advice is the window of the day count and the tier is the gain's |
| Creon.StockCode | fetch_data_creon_simple.py:67 | the code starts with `A`; it is the symbol when that already starts with `A`, else `A` prefixed to it |
| Creon.StockCodeIdempotent | fetch_data_creon_simple.py:67 | prefixing a code that already has `A` changes nothing |
| Creon.NatToString | fetch_data_creon_simple.py:120 | `str(n)` is a non-empty string of digits |
| Creon.NatToStringLength | fetch_data_creon_simple.py:120 | a k-digit number has k characters |
| Creon.Slice | fetch_data_creon_simple.py:121-123 | Python `s[a:b]` has the clamped length |
| Creon.ConvertDateTextKeepsPrefix | fetch_data_creon_simple.py:118-124 | of dash-free text the result has min(len, 8) + 2 characters, and without its dashes it is the first 8 characters |
| Creon.ConvertEightDigitDate | fetch_data_creon_simple.py:118-124 | an eight-digit YYYYMMDD becomes ten characters `YYYY-MM-DD`, and removing the dashes gives back `str(date)` |
| Creon.ConvertDateText | fetch_data_creon_simple.py:118-124 | the year, month and day slices of the date text joined by dashes, each cut by Python's clamping slice; `ConvertDateTextKeepsPrefix` states its length and content |
| Creon.ConvertDate | fetch_data_creon_simple.py:118-124 | `_convert_date`: `str(date)` cut into dashed fields; `ConvertEightDigitDate` states the round trip for eight-digit dates |
| Creon.RowsOf | fetch_data_creon_simple.py:94-106 | one converted row per raw row, in request order |
| Creon.TextLeTotal | fetch_data_creon_simple.py:109 | string comparison is total |
| Creon.TextLe | fetch_data_creon_simple.py:109 | Python's string comparison, lexicographic by character code; `TextLeTotal` proves it total |
| Creon.Insert | fetch_data_creon_simple.py:109 | insertion adds exactly the one row |
| Creon.InsertSorted | fetch_data_creon_simple.py:109 | insertion into a sorted list keeps it sorted |
| Creon.SortByDate | fetch_data_creon_simple.py:109 | the sort is a permutation |
| Creon.SortByDateSorted | fetch_data_creon_simple.py:109 | after the sort the dates never decrease |
| Creon.GetStockData | fetch_data_creon_simple.py:48-116 | None exactly without a connection; otherwise the prefixed code and the collected rows sorted by date |
| Creon.FetchedRows | fetch_data_creon_simple.py:94-109 | the fetched rows are sorted, a permutation of the converted rows, and each comes from a raw row |

## Left out

- Network access, files and the COM object. These are `connect()`, `BlockRequest`, `GetHeaderValue` and `GetDataValue` of the CREON API, CSV loading and saving, the `yfinance` and real-time data loaders, and `time.sleep`. `Creon.GetStockData` takes the rows the request returned as a parameter, and the count-0 error printing is not modelled.
- The dates of the pandas engines are positions in the frame's index. `datetime.now()` in the reports, and the symbol and date text, are not modelled. Dates of the list analyzer are plain day numbers.
- The description, recommendation and reason texts of every rule and report, printing, the `details` dictionaries, `print_analysis_report` (inflection_analyzer.py:497-554), and the texts of `analyze_specific_inflection` (analyze_inflection_005930.py:126-170) are not modelled. The detailed days it is called for are modelled.
- The sample-data generators, `main()` functions and `__main__` blocks: `generate_sample_data` (inflection_analyzer.py:557-605), `create_dummy_data*` and the training and loading code of predict_model_enhanced_complete.py.
- The ML model (`train_or_load_model`, `get_ml_prediction`, `prepare_features`) is left out: it calls into scikit-learn. Its score is a parameter of the combiners.
- Floating point is modelled as exact real arithmetic. `round(x, 2)` in `combine_ml_and_inflection` is treated as the identity, and `float()` / `int()` conversions are omitted.
- The square root in the rolling standard deviation is a parameter. The only assumption about it is that it is non-negative on non-negative inputs.
- Exceptions: `try/except` re-raising in utils_indicators.py is not modelled. The only error outcomes are those of `validate_dataframe` and the Python errors named in each model: the `min([])` of the analyzer rules and the division by zero and `data[-1]` of the single-symbol report.
- The combiner's extra reasons (predict_model_enhanced_complete.py:641-657) only append texts and are not modelled.
- Concurrency and 32-bit Python environments are irrelevant to the logic and are not modelled.
- SymbolReport.AnalyzeSymbol: output printed before the script stops on a flat 20-bar range is not modelled. The outcome is `FlatRange`.
- Creon.SortByDate: it is proved sorted and a permutation. That equal dates keep their request order, as Python's stable sort does, is not proved.

## Findings

| source | as written | input that shows it | evidently intended | confidence | as-written member | corrected member |
|---|---|---|---|---|---|---|
| predict_model_enhanced_complete.py:628-635 | the `<= -30` test comes before the `<= -60` test, so STRONG_SELL is never returned | ML score 0 and inflection score -50 give a combined score of -80, which yields SELL | scores <= -60 give (STRONG_SELL, HIGH) | not executed | EnhancedEngine.FinalRecommendationAsWritten | EnhancedEngine.FinalRecommendation |

# Bot_trading_API_RES — a verified model of the signal and position core

This project models, in Dafny, the core of a cryptocurrency futures trading bot. It has three parts.

- **Indicators.** The bot computes these from candle series:
  - RSI, both with a simple average and with Wilder's smoothing;
  - the simple and exponential moving averages and the average true range;
  - the buy/sell volume delta, the point of control and the VWAP summary;
  - the bucketed volume profile, support/resistance levels and the risk/reward ratio.
- **Signal rules.** The bot builds signals from the indicators:
  - the scanner's fixed-percentage signal and its batching of the pair list;
  - the volume-breakout continuation signal;
  - the trend check of an open signal and the confidence score;
  - the futures analyzer's pre-filter, MA/RSI entry gate, ATR levels, clamped confidence and order-book volume zones;
  - the market-trend analyzer's ACCUMULATION / DISTRIBUTION / NEUTRAL classification, with its confidence downgrade and bounded history.
- **Position lifecycle.**
  - The order manager: an active order per symbol, a capped active count, and completed orders with profit and win/loss counters.
  - Its orders: repricing, TP/SL check and close.
  - The simpler order tracker.
  - The trading-position PnL update and the running trading statistics with their maximum drawdown.
  - The input validators (price, quantity, symbol, timeframe, trade parameters) and the console's bounded log.

**Modelling choices**
- Prices and volumes are `real`.
- An exception that the source catches becomes the value it falls back to (`None`, `false`, 50, 0, 0.5 …). An exception that it does not catch becomes a `requires`.
- State that the source updates in place is a `class`, with `modifies` clauses on its methods:
  - the order manager, its orders and the order tracker;
  - the market-trend analyzer, the trading position and the statistics;
  - the console.
- Each `for` or `while` statement of the source is a `method` proved against a specification function. List comprehensions and generator expressions are functions.

| file | module | source |
|---|---|---|
| wrappers.dfy | `Wrappers` | `Option` |
| constants.dfy | `Constants` | `shared/constants.py` values |
| candles.dfy | `Candles` | candles, sums, min/max, sort, median |
| indicators.dfy | `Indicators` | `core/utils/indicators.py` and its copies in `calculations.py` / `futures.py` |
| calculations.dfy | `Calculations` | `core/utils/calculations.py` volume profile, support/resistance, risk/reward |
| signal_processor.dfy | `SignalProcessor` | `shared/signal_processor.py` |
| scanner.dfy | `Scanner` | `Bot_trading_API_RES.py` |
| futures.dfy | `Futures` | `core/analyzer/futures.py` |
| market_trend.dfy | `MarketTrendAnalysis` | `core/analyzer/market_trend.py` |
| entities.dfy | `Entities` | `core/models/entities.py` |
| bounded_buffer.dfy | `BoundedBuffer` | the append-then-drop-oldest buffer |
| console_log.dfy | `ConsoleLog` | `shared/console_manager.py` |
| order_data.dfy | `OrderModels` | `order_management/models/order_data.py` |
| order_manager.dfy | `OrderManagement` | `order_management/services/order_manager.py` |
| order_tracker.dfy | `OrderTracking` | `utils/order_tracker.py` |
| validators.dfy | `Validators` | `core/utils/validators.py` |

## Model

| member | source | states |
|---|---|---|
| Candles.Median | Bot_trading_API_RES/core/utils/calculations.py:119 | the median of a non-empty list lies between its minimum and maximum |
| Candles.Sort | Bot_trading_API_RES/core/utils/calculations.py:119 | the ordering the median is taken from is ascending and a permutation of its input |
| Indicators.RsiFromAverages | Bot_trading_API_RES/core/utils/indicators.py:32-41 | 100 − 100/(1+rs) is in [0,100] and is 100 exactly when the average loss is 0 |
| Indicators.SimpleRsi | Bot_trading_API_RES/core/utils/indicators.py:8-44 | 50 below period+1 closes; always in [0,100] |
| Indicators.SimpleRsiHundredIffNoLoss | Bot_trading_API_RES/core/utils/indicators.py:28-39 | with enough closes, the RSI is 100 exactly when the losses of the last `period` moves sum to zero |
| Indicators.SimpleRsiHundredIffNoFall | Bot_trading_API_RES/core/utils/calculations.py:78-94 | with enough closes, the RSI is 100 exactly when none of the last `period` moves is a fall |
| Indicators.RecentLossesZeroIffNoFall | Bot_trading_API_RES/core/utils/indicators.py:32-41 | the last `period` losses are all 0 exactly when no close in that window falls below its predecessor |
| Indicators.Ma | Bot_trading_API_RES/core/utils/calculations.py:37-59 | 0 below `period` closes (and for period 0); otherwise the mean of the last `period` closes, between their min and max |
| Indicators.Delta | Bot_trading_API_RES/core/utils/calculations.py:10-35 | 0 for fewer than 2 candles or with no volume |
| Indicators.DeltaBounded | Bot_trading_API_RES/core/utils/indicators.py:85-92 | with non-negative volumes the delta is in [-100,100] |
| Indicators.DeltaUnanimous | Bot_trading_API_RES/core/utils/calculations.py:28-32 | all candles closing at or above open (dojis count as buys) give +100; all closing below give −100 |
| Indicators.PooledMidpoints | Bot_trading_API_RES/core/utils/calculations.py:114-117 | the pooled (high+low)/2 midpoints are empty exactly when every timeframe is empty |
| Indicators.Poc | Bot_trading_API_RES/core/utils/calculations.py:99-122 | None exactly when there are no candles; otherwise a value between the lowest and highest pooled midpoint |
| Indicators.CalculatePoc | Bot_trading_API_RES/core/utils/calculations.py:113-119 | the loop that extends the pool timeframe by timeframe returns exactly Poc |
| Indicators.WeightedSumBounds | Bot_trading_API_RES/core/utils/indicators.py:144 | prices in [lo,hi] weighted by non-negative volumes give lo·Σv ≤ Σp·v ≤ hi·Σv |
| Indicators.WeightedSumAtLeast | Bot_trading_API_RES/core/utils/indicators.py:144 | prices at least lo weighted by non-negative volumes give Σp·v ≥ lo·Σv |
| Indicators.WeightedSumAtMost | Bot_trading_API_RES/core/utils/indicators.py:144 | prices at most hi weighted by non-negative volumes give Σp·v ≤ hi·Σv |
| Indicators.WeightedMeanBetween | Bot_trading_API_RES/core/utils/indicators.py:144 | a volume-weighted mean of prices in [lo,hi] with positive total volume lies in [lo,hi] |
| Indicators.Summarize | Bot_trading_API_RES/core/utils/indicators.py:122-153 | zero total volume gives the empty default; otherwise the closes, the volumes, their total Σ vol, and a vwap with vwap · Σ vol = Σ close·vol |
| Indicators.VwapBetweenCloses | Bot_trading_API_RES/core/utils/indicators.py:137-153 | with non-negative volumes and some volume, the VWAP lies between the lowest and highest close |
| Calculations.Trunc | Bot_trading_API_RES/core/utils/calculations.py:162 | `int()` truncates toward zero: the result lies between 0 and x |
| Calculations.BucketInRange | Bot_trading_API_RES/core/utils/calculations.py:151-162 | with positive levels, a price in [lo,hi] is counted under a level between lo and the price |
| Calculations.LevelWidth | Bot_trading_API_RES/core/utils/calculations.py:155-157 | the level width is zero exactly when the lowest and highest midpoint coincide |
| Calculations.AddVolumePrices | Bot_trading_API_RES/core/utils/calculations.py:163 | `profile[level] = profile.get(level, 0) + volume` adds exactly the key `level` to the keys |
| Calculations.AddVolumeKeys | Bot_trading_API_RES/core/utils/calculations.py:160-163 | adding volume under a key keeps the dict's keys unique and adds exactly that key |
| Calculations.AddVolumeLookup | Bot_trading_API_RES/core/utils/calculations.py:160-163 | adding volume changes the entry of that key by v and no other entry |
| Calculations.AddVolumeSum | Bot_trading_API_RES/core/utils/calculations.py:160-163 | adding volume adds v to the profile's total |
| Calculations.ProfileOf | Bot_trading_API_RES/core/utils/calculations.py:160-163 | the filled profile has one entry per distinct level, each holding exactly the volume counted under it, and its total is the total volume |
| Calculations.KeepAtLeast | Bot_trading_API_RES/core/utils/calculations.py:166-169 | the filter keeps exactly the entries whose volume reaches the threshold |
| Calculations.FillProfile | Bot_trading_API_RES/core/utils/calculations.py:160-163 | the filling loop builds the profile specified by ProfileOf |
| Calculations.KeptLevelsFormProfile | Bot_trading_API_RES/core/utils/calculations.py:166-169 | the kept levels are distinct; each holds its level's total volume, which reaches threshold × total; every level that reaches it is kept |
| Calculations.KeptLevelsInRange | Bot_trading_API_RES/core/utils/calculations.py:151-169 | every kept level lies between the lowest and highest midpoint |
| Calculations.VolumeProfile | Bot_trading_API_RES/core/utils/calculations.py:124-172 | the loop the source runs returns exactly VolumeProfileOf: {} on empty input, zero levels or identical midpoints, otherwise the kept levels of the bucketed profile |
| Calculations.VolumeProfileCases | Bot_trading_API_RES/core/utils/calculations.py:146-169 | no candles or zero levels give {}; identical midpoints give {}; otherwise the level width is non-zero and the result is the kept share of the bucketed profile |
| Calculations.InsertUnique | Bot_trading_API_RES/core/utils/calculations.py:217-218 | inserting into a strictly ascending list keeps it strictly ascending and adds exactly that value |
| Calculations.SortedSet | Bot_trading_API_RES/core/utils/calculations.py:218 | `sorted(set(xs))` is strictly ascending with exactly the values of xs |
| Calculations.Take | Bot_trading_API_RES/core/utils/calculations.py:217-218 | slicing `[:m]` gives a prefix of length min(m, len) |
| Calculations.TopsOwnWindowIsMax | Bot_trading_API_RES/core/utils/calculations.py:210 | the test `highs[i] == max(window_highs)` holds exactly when no high of the window exceeds highs[i] |
| Calculations.BottomsOwnWindowIsMin | Bot_trading_API_RES/core/utils/calculations.py:212 | the test `lows[i] == min(window_lows)` holds exactly when no low of the window is below lows[i] |
| Calculations.PeakIsWindowMax | Bot_trading_API_RES/core/utils/calculations.py:207-212 | every collected high is the high of a candle at or after window_size that is the highest of the 2·window_size highs around it |
| Calculations.TroughIsWindowMin | Bot_trading_API_RES/core/utils/calculations.py:207-214 | every collected low is the low of a candle at or after window_size that is the lowest of the 2·window_size lows around it |
| Calculations.SupportIsTrough | Bot_trading_API_RES/core/utils/calculations.py:207-218 | a returned support is the low of a candle that bottoms its window |
| Calculations.SupportsAreTroughs | Bot_trading_API_RES/core/utils/calculations.py:207-218 | every returned support is the low of a candle that bottoms its window |
| Calculations.ResistanceIsPeak | Bot_trading_API_RES/core/utils/calculations.py:207-217 | a returned resistance is the high of a candle that tops its window |
| Calculations.ResistancesArePeaks | Bot_trading_API_RES/core/utils/calculations.py:207-217 | every returned resistance is the high of a candle that tops its window |
| Calculations.SupportLevelsSound | Bot_trading_API_RES/core/utils/calculations.py:200-218 | supports are strictly ascending, at most num_levels, each a window-minimum low, and the lowest such lows |
| Calculations.ResistanceLevelsSound | Bot_trading_API_RES/core/utils/calculations.py:200-217 | resistances are strictly descending, at most num_levels, each a window-maximum high, and the highest such highs |
| Calculations.ReverseTakeOrdered | Bot_trading_API_RES/core/utils/calculations.py:217 | a prefix of the reverse of an ascending list is strictly descending and holds every value above one it holds |
| Calculations.CollectPeaks | Bot_trading_API_RES/core/utils/calculations.py:200-214 | the scanning loop collects exactly the window-maximum highs in candle order |
| Calculations.CollectTroughs | Bot_trading_API_RES/core/utils/calculations.py:200-214 | the scanning loop collects exactly the window-minimum lows in candle order |
| Calculations.SupportScan | Bot_trading_API_RES/core/utils/calculations.py:207-218 | the scan followed by `sorted(set(...))[:num_levels]` returns exactly SupportLevels |
| Calculations.ResistanceScan | Bot_trading_API_RES/core/utils/calculations.py:207-217 | the scan followed by `sorted(set(...), reverse=True)[:num_levels]` returns exactly ResistanceLevels |
| Calculations.SupportResistance | Bot_trading_API_RES/core/utils/calculations.py:174-223 | ([],[]) below window_size or for a zero window; otherwise the sorted, deduplicated, truncated supports and resistances |
| Calculations.RiskReward | Bot_trading_API_RES/core/utils/calculations.py:225-261 | never negative, 0 when there is no risk, otherwise reward exactly equal to ratio × risk |
| Calculations.RiskRewardSideIndependent | Bot_trading_API_RES/core/utils/calculations.py:251-258 | the LONG and SHORT formulas give the same ratio |
| SignalProcessor.SmoothedNonNegative | Bot_trading_API_RES/shared/signal_processor.py:305-307 | 13/14 Wilder smoothing of non-negative values is non-negative, and 0 exactly when the seed and all values are 0 |
| SignalProcessor.SeededAverage | Bot_trading_API_RES/shared/signal_processor.py:302-307 | seeding with the mean of the first `period` values then smoothing gives a non-negative average, 0 exactly when all values are 0 |
| SignalProcessor.WilderAverages | Bot_trading_API_RES/shared/signal_processor.py:298-307 | both averages are non-negative; the loss average is 0 exactly when no close falls below its predecessor |
| SignalProcessor.WilderRsi | Bot_trading_API_RES/shared/signal_processor.py:292-319 | 50 below period+1 closes (and for period 0); always in [0,100] |
| SignalProcessor.WilderRsiHundredIffNoFall | Bot_trading_API_RES/shared/signal_processor.py:305-313 | with enough closes, the smoothed RSI is 100 exactly when no close ever falls |
| SignalProcessor.WilderRsiMatchesSimpleAtSeed | Bot_trading_API_RES/shared/signal_processor.py:302-313 | with exactly period+1 closes the Wilder RSI equals the simple RSI |
| SignalProcessor.SmoothAverages | Bot_trading_API_RES/shared/signal_processor.py:305-307 | the loop leaves each average equal to the seed smoothed over every move after the seed window, in order |
| SignalProcessor.WilderRsiOfAverages | Bot_trading_API_RES/shared/signal_processor.py:302-316 | given the two Wilder averages, both are non-negative and the RSI is 100 when the loss average is 0 and RsiFromAverages of them otherwise |
| SignalProcessor.CalculateRsi | Bot_trading_API_RES/shared/signal_processor.py:292-319 | the seed-then-smooth loop computes WilderRsi |
| SignalProcessor.EmaStepBetween | Bot_trading_API_RES/shared/signal_processor.py:331-333 | an EMA update stays between the previous average and the new price |
| SignalProcessor.EmaFromBetween | Bot_trading_API_RES/shared/signal_processor.py:328-331 | stepping the EMA through values in [lo,hi] from a seed in [lo,hi] stays in [lo,hi] |
| SignalProcessor.Multiplier | Bot_trading_API_RES/shared/signal_processor.py:327 | 2/(period+1) lies in (0,1] |
| SignalProcessor.Ema | Bot_trading_API_RES/shared/signal_processor.py:321-337 | the last value when len < period; always between the min and max of the data |
| SignalProcessor.EmaOfConstant | Bot_trading_API_RES/shared/signal_processor.py:321-337 | a constant series has that constant as its EMA |
| SignalProcessor.CalculateEma | Bot_trading_API_RES/shared/signal_processor.py:321-337 | the seed-then-update loop computes Ema |
| SignalProcessor.TrueRange | Bot_trading_API_RES/shared/signal_processor.py:351-355 | a true range is never negative |
| SignalProcessor.TrueRangeZero | Bot_trading_API_RES/shared/signal_processor.py:351-355 | a true range is 0 exactly when the candle is flat at the previous close |
| SignalProcessor.TrueRanges | Bot_trading_API_RES/shared/signal_processor.py:345-355 | one true range per candle after the first, each against the previous close |
| SignalProcessor.Atr | Bot_trading_API_RES/shared/signal_processor.py:339-363 | 0 below period+1 candles (and for period 0); never negative |
| SignalProcessor.AtrZeroIffFlat | Bot_trading_API_RES/shared/signal_processor.py:339-363 | with enough candles the ATR is 0 exactly when each of the last `period` candles is flat at the previous close |
| SignalProcessor.CalculateAtr | Bot_trading_API_RES/shared/signal_processor.py:339-363 | the collecting loop computes Atr |
| SignalProcessor.RsiScore | Bot_trading_API_RES/shared/signal_processor.py:44-50 | the RSI part is in [0,30] and positive exactly for an oversold LONG or an overbought SHORT |
| SignalProcessor.VolumeScore | Bot_trading_API_RES/shared/signal_processor.py:52-58 | the volume part is in [0,30] and 0 exactly when the ratio is at most 1 |
| SignalProcessor.PatternScore | Bot_trading_API_RES/shared/signal_processor.py:60-78 | the price-pattern part is 0 or 20 |
| SignalProcessor.RrScore | Bot_trading_API_RES/shared/signal_processor.py:80-86 | the risk/reward part is in [0,20] |
| SignalProcessor.Confidence | Bot_trading_API_RES/shared/signal_processor.py:30-92 | for an RSI in [0,100] the total is in [0,100]; a zero mean volume or a stop at the entry gives 0 |
| SignalProcessor.ConfidenceOfNeutralSignal | Bot_trading_API_RES/shared/signal_processor.py:44-88 | a 1:1 signal with no RSI and too few candles scores exactly 10 |
| SignalProcessor.CalculateConfidence | Bot_trading_API_RES/shared/signal_processor.py:30-92 | the accumulating `confidence +=` code computes Confidence |
| SignalProcessor.TrendDecision | Bot_trading_API_RES/shared/signal_processor.py:128-169 | changed and reinforced are never both set, and new targets exist exactly when reinforced |
| SignalProcessor.NewTargetsOrdered | Bot_trading_API_RES/shared/signal_processor.py:156-169 | a reinforced trend with positive ATR gets sl < price < tp (LONG) or tp < price < sl (SHORT), with reward MinRrRatio × risk |
| SignalProcessor.ReinforcedLongMeansProgress | Bot_trading_API_RES/shared/signal_processor.py:128-153 | a LONG is reinforced exactly when RSI < 40, EMA20 > EMA50 and price > entry |
| SignalProcessor.AnalyzeTrend | Bot_trading_API_RES/shared/signal_processor.py:94-177 | fewer than 50 candles report nothing; otherwise the decision on RSI(14), EMA20, EMA50 and ATR(14) |
| SignalProcessor.CheckVolumeSignal | Bot_trading_API_RES/shared/signal_processor.py:179-228 | None below 20 candles; a signal needs a volume breakout and two candles moving its way |
| SignalProcessor.PriceChangeSign | Bot_trading_API_RES/shared/signal_processor.py:203-204 | for a positive open, the percentage change is positive (negative) exactly when the candle closes above (below) its open |
| SignalProcessor.VolumeSignalIff | Bot_trading_API_RES/shared/signal_processor.py:182-225 | LONG exactly on a breakout with two rising candles and a higher close; SHORT exactly on the mirror |
| Scanner.ScanIndicatorsOf | Bot_trading_API_RES/Bot_trading_API_RES.py:192-232 | no indicators for no candles; a reported RSI is in [0,100] |
| Scanner.ScanRsiIsSimpleRsi | Bot_trading_API_RES/Bot_trading_API_RES.py:203-220 | with more than RSI_PERIOD candles the scanner's RSI is the simple RSI |
| Scanner.ScanRsiOfOneCandle | Bot_trading_API_RES/Bot_trading_API_RES.py:203-220 | one candle with volume has no loss: RSI 100 and volume ratio 20 (the sentinel 50 is not used here) |
| Scanner.VolumeRatioIsRelativeToMean | Bot_trading_API_RES/Bot_trading_API_RES.py:223 | the ratio is the last volume over the mean volume of the last 20 candles, the current one included |
| Scanner.SplitMoves | Bot_trading_API_RES/Bot_trading_API_RES.py:203-210 | the loop splits the moves into gains and losses; a zero move is a zero gain |
| Scanner.CalculateIndicators | Bot_trading_API_RES/Bot_trading_API_RES.py:192-232 | the loop-based computation yields ScanIndicatorsOf |
| Scanner.AnalyzeSymbol | Bot_trading_API_RES/Bot_trading_API_RES.py:234-275 | None for no candles or no indicators; a signal has entry = last close and confidence 0.55 |
| Scanner.AnalyzeSymbolSides | Bot_trading_API_RES/Bot_trading_API_RES.py:248-269 | LONG exactly when RSI < 30 and ratio > 1.15; SHORT exactly when RSI > 70 and ratio > 1.15 |
| Scanner.ScanSignalLevelsOrdered | Bot_trading_API_RES/Bot_trading_API_RES.py:248-269 | for a positive close, tp > entry > sl for LONG and tp < entry < sl for SHORT |
| Scanner.CeilingDivision | Bot_trading_API_RES/Bot_trading_API_RES.py:323-325 | k chunks of `size` covering n items, the last non-empty, means k = ⌈n/size⌉ |
| Scanner.ChunksFlatten | Bot_trading_API_RES/Bot_trading_API_RES.py:323-325 | the batches concatenate back to the pair list, so every pair is scanned once and in order |
| Scanner.ChunksShape | Bot_trading_API_RES/Bot_trading_API_RES.py:323-325 | every batch is non-empty and holds at most `size` pairs; all but the last hold exactly `size` |
| Scanner.ChunksCount | Bot_trading_API_RES/Bot_trading_API_RES.py:323-325 | there are ⌈n/size⌉ batches for n pairs |
| Scanner.SplitIntoChunks | Bot_trading_API_RES/Bot_trading_API_RES.py:323-325 | the batching loop returns exactly ChunksOf, whose shape, count and concatenation the Chunks lemmas give |
| Futures.PreFilter | Bot_trading_API_RES/core/analyzer/futures.py:61-106 | a low quote volume rejects first; a wide spread or high funding rejects only when the earlier checks passed |
| Futures.PreFilterPassesIff | Bot_trading_API_RES/core/analyzer/futures.py:70-102 | the filter passes exactly when the data is there and volume, spread and funding are all within their thresholds |
| Futures.EntryGateSides | Bot_trading_API_RES/core/analyzer/futures.py:140-167 | LONG exactly when price > MA20 > MA50 and both RSIs < 65; SHORT exactly on the mirror with both RSIs > 35 |
| Futures.AtrLevelsOrdered | Bot_trading_API_RES/core/analyzer/futures.py:261-268 | for positive entry and ATR, sl < entry < tp for LONG (mirrored for SHORT) and reward = 2 × risk |
| Futures.StopAtEntryIffFlat | Bot_trading_API_RES/core/analyzer/futures.py:261-268 | the stop is at the entry exactly when the ATR is 0 |
| Futures.AtrFraction | Bot_trading_API_RES/core/analyzer/futures.py:309-331 | 0.02 with no true range or a zero last close; otherwise non-negative |
| Futures.AtrFractionZeroIffFlat | Bot_trading_API_RES/core/analyzer/futures.py:318-327 | with a positive last close the ATR is 0 exactly when every candle is flat at the previous close |
| Futures.VolumeRatioOfValidZones | Bot_trading_API_RES/core/analyzer/futures.py:333-340 | over valid zones the ratio is non-negative, and equals long/short once the short volume reaches the 1e-6 floor |
| Futures.Clamp | Bot_trading_API_RES/core/analyzer/futures.py:366 | the clamp lands in [0, 0.95] |
| Futures.SignalConfidence | Bot_trading_API_RES/core/analyzer/futures.py:342-369 | the confidence is in [0, 0.95] |
| Futures.LongConfidenceMonotone | Bot_trading_API_RES/core/analyzer/futures.py:351-366 | a LONG is at least as confident with a lower highest RSI and a larger volume ratio |
| Futures.GenerateSignal | Bot_trading_API_RES/core/analyzer/futures.py:247-307 | a signal keeps its side and entry, has positive entry, stop and target, and confidence in [0, 0.95] |
| Futures.GeneratedSignalOrdered | Bot_trading_API_RES/core/analyzer/futures.py:261-307 | a generated signal has its stop and target on the trade's two sides |
| Futures.WideAtrGivesNoLong | Bot_trading_API_RES/core/analyzer/futures.py:294-307 | an ATR of 2/3 of the price or more gives no LONG, since its stop is not positive |
| Futures.FlatMarketGivesNoSignal | Bot_trading_API_RES/core/analyzer/futures.py:261-307 | a zero ATR puts the stop at the entry, and the signal is dropped |
| Futures.AnalyzeEntryConditions | Bot_trading_API_RES/core/analyzer/futures.py:108-171 | nothing without every timeframe and some zones; a signal has positive levels and passed the entry gate |
| Futures.ZoneIndex | Bot_trading_API_RES/core/analyzer/futures.py:225-239 | the `price in zones` lookup finds the zone at that price, or there is none |
| Futures.AtSnoc | Bot_trading_API_RES/core/analyzer/futures.py:225-239 | one more book entry adds one to the count and its quantity to the total at its price |
| Futures.NoEntriesAt | Bot_trading_API_RES/core/analyzer/futures.py:225-239 | a price no entry has has no count and no quantity |
| Futures.PlaceAskTally | Bot_trading_API_RES/core/analyzer/futures.py:225-231 | placing an ask keeps the zones an exact tally of the book, with the ask added as short volume |
| Futures.PlaceBidTally | Bot_trading_API_RES/core/analyzer/futures.py:233-239 | placing a bid keeps the zones an exact tally, with the bid added as long volume |
| Futures.PlaceAskExisting | Bot_trading_API_RES/core/analyzer/futures.py:229-231 | an ask at a price that has a zone keeps the zones an exact tally, the ask added to that zone |
| Futures.PlaceAskNew | Bot_trading_API_RES/core/analyzer/futures.py:227-228 | an ask at a new price, when placed, keeps the zones an exact tally, with a new zone for it |
| Futures.PlaceBidExisting | Bot_trading_API_RES/core/analyzer/futures.py:237-239 | a bid at a price that has a zone keeps the zones an exact tally, the bid added to that zone |
| Futures.PlaceBidNew | Bot_trading_API_RES/core/analyzer/futures.py:235-236 | a bid at a new price, when placed, keeps the zones an exact tally, with a new zone for it |
| Futures.VolumeZonesTally | Bot_trading_API_RES/core/analyzer/futures.py:219-245 | a non-empty result has one zone per distinct price; its count is the entries at that price, its short volume the asks and its long volume the bids |
| Futures.KeepCountedKeepsAll | Bot_trading_API_RES/core/analyzer/futures.py:241 | when every zone has an order, the order-count filter keeps all of them |
| Futures.NonPositivePriceEmptiesZones | Bot_trading_API_RES/core/analyzer/futures.py:219-245 | any entry with a non-positive price fails zone validation and the whole result is empty |
| Futures.ValidEntriesPlace | Bot_trading_API_RES/core/analyzer/futures.py:225-239 | positive prices and non-negative quantities never fail |
| Futures.PlaceSide | Bot_trading_API_RES/core/analyzer/futures.py:225-239 | the loop over one book side computes PlaceAll |
| Futures.AnalyzeVolumeZones | Bot_trading_API_RES/core/analyzer/futures.py:219-245 | the loops compute VolumeZonesOf (asks, then bids, then the filter) |
| MarketTrendAnalysis.Classify | Bot_trading_API_RES/core/analyzer/market_trend.py:131-149 | NEUTRAL has no strength or signal; ACCUMULATION signals LONG and DISTRIBUTION signals SHORT |
| MarketTrendAnalysis.ClassifySides | Bot_trading_API_RES/core/analyzer/market_trend.py:132-149 | with positive thresholds and non-zero ratios, ACCUMULATION and DISTRIBUTION hold exactly under their conditions |
| MarketTrendAnalysis.AccumulationStrength | Bot_trading_API_RES/core/analyzer/market_trend.py:132-137 | an ACCUMULATION has strength above 1 |
| MarketTrendAnalysis.VeryStrongClassified | Bot_trading_API_RES/core/analyzer/market_trend.py:132-137 | ratios over five times their thresholds, rising deltas and stacked prices classify as a LONG ACCUMULATION of strength above 5 |
| MarketTrendAnalysis.TrendConfidence | Bot_trading_API_RES/core/analyzer/market_trend.py:188-222 | the confidence is in [0,1] and 0 for NEUTRAL |
| MarketTrendAnalysis.TrendOf | Bot_trading_API_RES/core/analyzer/market_trend.py:111-186 | strength in [0,5], confidence in [0,1]; a NEUTRAL result is zeroed; a directional one has confidence ≥ 0.7 |
| MarketTrendAnalysis.AccumulationKeptIff | Bot_trading_API_RES/core/analyzer/market_trend.py:152-160 | an ACCUMULATION survives the downgrade exactly when RSI < 65 or price, MA20 and MA50 are stacked upward |
| MarketTrendAnalysis.VeryStrongAccumulationIsDropped | Bot_trading_API_RES/core/analyzer/market_trend.py:162-186 | ratios over five times their thresholds give strength above 5; MarketTrend rejects it and no trend is reported |
| MarketTrendAnalysis.MarketTrendAnalyzer.constructor | Bot_trading_API_RES/core/analyzer/market_trend.py:15-36 | stores the given vol_threshold, cnt_threshold and history_size (the source defaults them to 1.5, 1.5 and 100), with an empty history and no last trend |
| MarketTrendAnalysis.MarketTrendAnalyzer.GetOrderBookState | Bot_trading_API_RES/core/analyzer/market_trend.py:45-109 | a state is recorded exactly when it validates; history is the bounded push, with the newest last |
| MarketTrendAnalysis.MarketTrendAnalyzer.AnalyzeTrend | Bot_trading_API_RES/core/analyzer/market_trend.py:111-186 | an invalid state gives None and changes nothing; otherwise the state is recorded, TrendOf is reported, and a reported trend becomes the last trend |
| Entities.DirectionOf | Bot_trading_API_RES/core/models/entities.py:105-107 | only "LONG" and "SHORT" are sides, and they round-trip to their names |
| Entities.DirectionNameRoundTrip | Bot_trading_API_RES/core/models/entities.py:105-107 | parsing a side's name gives the side back |
| Entities.TrendTypeOf | Bot_trading_API_RES/core/models/entities.py:62-65 | only the three trend names are kinds |
| Entities.TrendTypeNameRoundTrip | Bot_trading_API_RES/core/models/entities.py:62-65 | parsing a kind's name gives the kind back |
| Entities.MarketTrendOf | Bot_trading_API_RES/core/models/entities.py:62-70 | a MarketTrend is built exactly for a known type, strength in [0,5] and confidence in [0,1] |
| Entities.SignalDataOf | Bot_trading_API_RES/core/models/entities.py:105-114 | a SignalData is built exactly for a side name and three positive prices |
| Entities.SignalDataIgnoresSides | Bot_trading_API_RES/core/models/entities.py:105-114 | a LONG whose stop is above its target still validates |
| Entities.PositionPnlSymmetric | Bot_trading_API_RES/core/models/entities.py:140-145 | no PnL at entry; LONG and SHORT PnLs at the same price are opposite |
| Entities.LongPnlSign | Bot_trading_API_RES/core/models/entities.py:140-145 | with positive entry and leverage, a LONG gains exactly above its entry and is flat exactly at it |
| Entities.TradingPosition.constructor | Bot_trading_API_RES/core/models/entities.py:125-138 | a new position stores its fields, with PnL 0 and status PENDING |
| Entities.TradingPosition.UpdatePnl | Bot_trading_API_RES/core/models/entities.py:140-145 | records the price and sets pnl = ±(price−entry)/entry·100·leverage; nothing else changes |
| Entities.Wins | Bot_trading_API_RES/core/models/entities.py:167-169 | the winning pnls are all positive |
| Entities.NonWins | Bot_trading_API_RES/core/models/entities.py:170-172 | the losing pnls are all ≤ 0 |
| Entities.WinsSnoc | Bot_trading_API_RES/core/models/entities.py:164-176 | one more trade joins exactly one of the wins and the losses |
| Entities.WinsPartition | Bot_trading_API_RES/core/models/entities.py:164-176 | wins + losses = number of trades |
| Entities.MeanSnoc | Bot_trading_API_RES/core/models/entities.py:167-172 | the running-average update gives the mean of the longer series |
| Entities.PeakBounds | Bot_trading_API_RES/core/models/entities.py:178-185 | the peak starts at 0 and bounds every cumulative pnl |
| Entities.DrawdownBounds | Bot_trading_API_RES/core/models/entities.py:178-185 | the drawdown is ≥ 0, grows with the history, and bounds every peak-to-now fall |
| Entities.DrawdownSnoc | Bot_trading_API_RES/core/models/entities.py:178-185 | one more trade never lowers the drawdown |
| Entities.WinRate | Bot_trading_API_RES/core/models/entities.py:174 | the win rate is in [0,100] |
| Entities.TradingStats.constructor | Bot_trading_API_RES/core/models/entities.py:148-160 | fresh statistics hold no trades |
| Entities.TradingStats.UpdateStats | Bot_trading_API_RES/core/models/entities.py:162-186 | appends the pnl; one more trade, a win exactly when pnl > 0; wins + losses = trades; win rate in [0,100]; drawdown never decreases |
| Entities.RescanDrawdown | Bot_trading_API_RES/core/models/entities.py:178-185 | the loop returns the larger of the previous maximum and the history's drawdown |
| BoundedBuffer.PushBounded | Bot_trading_API_RES/core/analyzer/market_trend.py:100-103 | the length stays within capacity; below it nothing is dropped; at it exactly the oldest is dropped; the new item is last |
| BoundedBuffer.PushKeepsOrder | Bot_trading_API_RES/shared/console_manager.py:56-58 | the retained items keep their relative order |
| ConsoleLog.ConsoleManager.constructor | Bot_trading_API_RES/shared/console_manager.py:17-22 | no logs, capacity 10 |
| ConsoleLog.ConsoleManager.AddLog | Bot_trading_API_RES/shared/console_manager.py:54-58 | the message is last; below capacity nothing is dropped, at capacity exactly the oldest is dropped |
| OrderModels.PnlSymmetric | Bot_trading_API_RES/order_management/models/order_data.py:42-50 | no PnL at entry; LONG and SHORT percentages and PnLs at one price are opposite |
| OrderModels.LongProfitIff | Bot_trading_API_RES/order_management/models/order_data.py:42-50 | with positive entry and investment, a LONG is in profit exactly above its entry |
| OrderModels.CloseConditionCases | Bot_trading_API_RES/order_management/models/order_data.py:52-64 | TP exactly when the price reached it; SL exactly when it reached SL but not TP (TP wins when both hold); never a reversal |
| OrderModels.OrderData.FromSignal | Bot_trading_API_RES/order_management/models/order_data.py:72-84 | RUNNING, priced at entry, no PnL, no close time or reason |
| OrderModels.OrderData.UpdatePrice | Bot_trading_API_RES/order_management/models/order_data.py:40-50 | sets the price and the side-signed PnL percentage and PnL; status and close data unchanged |
| OrderModels.OrderData.CheckCloseConditions | Bot_trading_API_RES/order_management/models/order_data.py:52-64 | reads the order only and agrees with the TP/SL decision |
| OrderModels.OrderData.Close | Bot_trading_API_RES/order_management/models/order_data.py:66-70 | COMPLETED with reason and close time; price and PnL unchanged |
| OrderManagement.Symbols | Bot_trading_API_RES/order_management/services/order_manager.py:118-120 | one symbol per active order, in order |
| OrderManagement.IndexOf | Bot_trading_API_RES/order_management/services/order_manager.py:40-43 | the position of the symbol's order, or −1 exactly when no order has it |
| OrderManagement.AppendDistinct | Bot_trading_API_RES/order_management/services/order_manager.py:45-51 | adding an order for a new symbol keeps one order per symbol |
| OrderManagement.RemoveDistinct | Bot_trading_API_RES/order_management/services/order_manager.py:98-100 | removing an order keeps one order per symbol and removes exactly its symbol |
| OrderManagement.RemovedSymbols | Bot_trading_API_RES/order_management/services/order_manager.py:98 | after `active_orders.pop(symbol)` a symbol is still active exactly when it was before and is not the popped one |
| OrderManagement.UpdateDecisionCases | Bot_trading_API_RES/order_management/services/order_manager.py:80-91 | an opposite new signal closes as a reversal before TP/SL is consulted; otherwise TP beats SL |
| OrderManagement.TallySnoc | Bot_trading_API_RES/order_management/services/order_manager.py:101-107 | one more completed pnl adds to the total and to exactly one of the win and loss counts |
| OrderManagement.OrderManager.constructor | Bot_trading_API_RES/order_management/services/order_manager.py:20-27 | no orders, no profit, no wins or losses |
| OrderManagement.OrderManager.AddOrder | Bot_trading_API_RES/order_management/services/order_manager.py:33-55 | adds exactly when there is room, the signal is complete and the symbol is not active; the new order is appended, otherwise nothing changes |
| OrderManagement.OrderManager.CloseOrder | Bot_trading_API_RES/order_management/services/order_manager.py:93-116 | afterwards the symbol is not active and every other symbol keeps its state; an inactive symbol changes nothing; otherwise the order is popped from the running orders, moves to the end of completed, and the profit, win and loss counts follow its pnl |
| OrderManagement.OrderManager.RecordCompleted | Bot_trading_API_RES/order_management/services/order_manager.py:101-109 | the closed order joins the completed orders; its pnl is added to the profit and to the wins when positive, else to the losses; the active orders are unchanged |
| OrderManagement.OrderManager.UpdateOrder | Bot_trading_API_RES/order_management/services/order_manager.py:57-109 | unknown symbol: (None, None) and no change; otherwise the order is repriced and the decision is UpdateDecision (reversal before TP before SL); without a reason the manager is unchanged and the order stays open; with one the order is popped from the running orders (every other symbol stays active), appended to completed, marked COMPLETED with that reason and time, its pnl added to the profit and to the wins when positive, else to the losses |
| OrderManagement.OrderManager.GetActiveSymbols | Bot_trading_API_RES/order_management/services/order_manager.py:118-120 | the active symbols, each once |
| OrderManagement.OrderManager.GetStatistics | Bot_trading_API_RES/order_management/services/order_manager.py:122-134 | trades = wins + losses = completed orders; win rate 0 with no trades and in [0,100] otherwise; profit = Σ completed pnl |
| OrderTracking.ProfitLoss | Bot_trading_API_RES/utils/order_tracker.py:145-149 | the tracker's PnL is the order manager's PnL formula on its investment |
| OrderTracking.UpdateDecisionMatchesManager | Bot_trading_API_RES/utils/order_tracker.py:98-122 | without a direction it decides like the order manager; an opposite direction reverses; a same direction does nothing |
| OrderTracking.Closed | Bot_trading_API_RES/utils/order_tracker.py:124-136 | a closed order records its PnL and is SUCCESS exactly when the PnL is positive, FAILED otherwise; nothing else changes |
| OrderTracking.RunningAfterStore | Bot_trading_API_RES/utils/order_tracker.py:68-79 | storing a running order adds at most one running symbol |
| OrderTracking.RunningAfterClose | Bot_trading_API_RES/utils/order_tracker.py:124-136 | closing a running order removes exactly one running symbol |
| OrderTracking.SuccessRate | Bot_trading_API_RES/utils/order_tracker.py:156-158 | 0 with no orders; in [0,100] when successes ≤ orders; above 100 otherwise |
| OrderTracking.OrderTracker.constructor | Bot_trading_API_RES/utils/order_tracker.py:29-38 | no orders, all counters 0 |
| OrderTracking.OrderTracker.AddOrder | Bot_trading_API_RES/utils/order_tracker.py:68-79 | stores (or overwrites) a RUNNING order with PnL 0 and investment 100, and counts one more order |
| OrderTracking.OrderTracker.CloseOrder | Bot_trading_API_RES/utils/order_tracker.py:124-143 | the order is closed in place (not removed); exactly one of the success and failure counters grows; the profit grows by the PnL |
| OrderTracking.OrderTracker.UpdateOrder | Bot_trading_API_RES/utils/order_tracker.py:91-122 | unknown symbol or no decision: no change; otherwise closes the stored order whatever its status |
| OrderTracking.OrderTracker.UpdateRunningOrder | Bot_trading_API_RES/utils/order_tracker.py:91-122 | as UpdateOrder, but only a RUNNING order is closed, which keeps successes + failures ≤ orders |
| OrderTracking.OrderTracker.MonitorSuccessRate | Bot_trading_API_RES/utils/order_tracker.py:156-158 | with the counters consistent the success rate is in [0,100] |
| OrderTracking.DoubleCloseExample | Bot_trading_API_RES/utils/order_tracker.py:91-143 | one order closed twice counts two successes, and the success rate exceeds 100 |
| OrderTracking.SingleCloseExample | Bot_trading_API_RES/utils/order_tracker.py:91-143 | with the corrected update, the same updates count one success and the rate is 100 |
| Validators.ValidatePrice | Bot_trading_API_RES/core/utils/validators.py:9-38 | valid exactly when price > min and (no max, a max of 0, or price < max) |
| Validators.PyModRange | Bot_trading_API_RES/core/utils/validators.py:70-71 | Python's float `%` takes the divisor's sign and is smaller than it in magnitude |
| Validators.PyModZeroIffMultiple | Bot_trading_API_RES/core/utils/validators.py:70-71 | a zero remainder means a whole multiple of the step, and every multiple has a zero remainder |
| Validators.ValidateQuantity | Bot_trading_API_RES/core/utils/validators.py:40-74 | false outside [min,max] and for a zero step; a valid quantity is a whole multiple of the step |
| Validators.MultiplesAreValidQuantities | Bot_trading_API_RES/core/utils/validators.py:66-71 | every multiple of the step inside [min,max] is valid |
| Validators.TrailingNewlineSymbolAccepted | Bot_trading_API_RES/core/utils/validators.py:92-93 | "BTCUSDT\n" passes the regex as written (`$` matches before a final newline) but not the intended check |
| Validators.ValidateSymbolCorrected | Bot_trading_API_RES/core/utils/validators.py:92-93 | the intended check is the as-written one without a newline; they differ only on a valid symbol plus a final newline |
| Validators.StripLeft | Bot_trading_API_RES/core/utils/validators.py:123 | `int()`'s leading-whitespace strip leaves a suffix starting with a non-space |
| Validators.StripRight | Bot_trading_API_RES/core/utils/validators.py:123 | the trailing strip leaves a prefix ending with a non-space |
| Validators.Show | Bot_trading_API_RES/core/utils/validators.py:123 | a number's decimal digits are non-empty and all digits |
| Validators.ShowDigitsValue | Bot_trading_API_RES/core/utils/validators.py:123 | reading the digits back gives the number |
| Validators.ParseShow | Bot_trading_API_RES/core/utils/validators.py:123 | `int(str(n)) == n` |
| Validators.ParsePadded | Bot_trading_API_RES/core/utils/validators.py:123 | leading whitespace is ignored by `int()` |
| Validators.ParseSigned | Bot_trading_API_RES/core/utils/validators.py:123 | `int()` accepts a leading + or − after whitespace |
| Validators.ParseSignedShow | Bot_trading_API_RES/core/utils/validators.py:123 | a signed decimal reads back as its value |
| Validators.DoubleUnderscoreRefused | Bot_trading_API_RES/core/utils/validators.py:123 | `int()` refuses two underscores in a row |
| Validators.ParseInt | Bot_trading_API_RES/core/utils/validators.py:123 | a parsed number came from a non-blank string |
| Validators.ValidateTimeframe | Bot_trading_API_RES/core/utils/validators.py:97-129 | false below 2 characters; a valid timeframe ends in a unit and its prefix parses to 1..that unit's maximum |
| Validators.CanonicalTimeframeAccepted | Bot_trading_API_RES/core/utils/validators.py:112-126 | every in-range value followed by its unit is accepted |
| Validators.AcceptedTimeframeNormalizes | Bot_trading_API_RES/core/utils/validators.py:112-126 | an accepted timeframe's value is in range for its unit |
| Validators.OutOfRangeTimeframeRejected | Bot_trading_API_RES/core/utils/validators.py:112-126 | a value of 0 or above the unit's maximum is rejected |
| Validators.FieldError | Bot_trading_API_RES/core/utils/validators.py:148-161 | no error exactly when every required field is present and well typed; otherwise the first failing field's error |
| Validators.CheckRequiredFields | Bot_trading_API_RES/core/utils/validators.py:157-161 | the loop that returns at the first missing or ill-typed field returns exactly FieldError |
| Validators.ValidateTradeParametersIff | Bot_trading_API_RES/core/utils/validators.py:131-186 | (True, None) exactly for well-formed parameters |
| Validators.FieldErrorsComeFirst | Bot_trading_API_RES/core/utils/validators.py:148-161 | the first failing required field is the one reported, before any value check |
| Validators.SideCheckedBeforeRest | Bot_trading_API_RES/core/utils/validators.py:164-166 | with all fields well typed, a bad side is reported as "Invalid side" before type, quantity, leverage or price |

## Left out

- The duplicate indicators are modelled once, in `Indicators`. Those are the RSI, MA, delta and POC in `core/utils/indicators.py`, `core/utils/calculations.py` and `core/analyzer/futures.py`. Where a copy behaves differently, it has its own member: the scanner's RSI, Wilder's RSI and the futures ATR.
- Exchange, network and clock reads become parameters. These are klines, the ticker, the order book, funding rates and `datetime` timestamps.
- The Telegram, tkinter, curses, Prometheus, logging and SQLite code is not modelled, and neither is the websocket code.
- `round(...)` is not modelled. Confidence and RSI are stated before rounding.
- Floating point is not modelled: prices are exact reals. IEEE rounding, NaN and `float('inf')` ratios are out of scope.
- The confidence downgrade at 0.7 compares exact reals.
- The `Decimal` prices and PnL of `order_management/models/order_data.py` and `order_management/services/order_manager.py` are modelled as `real`.
- Negative `period` arguments are out of scope, because periods are `nat`.
- A side name other than "LONG" is treated as SHORT wherever the source does so with an `else`.
- SignalProcessor.AnalyzeTrend: the `new_targets` key is modelled, but the Vietnamese reason strings are not.
- Close reasons are the `CloseReason` datatype, not the message strings the source builds.
- OrderModels.OrderData: the identity fields (symbol, side, levels, entry time) are `const`, because the source never reassigns them.
- OrderManagement.OrderManager: `MAX_ACTIVE_ORDERS` and `INITIAL_INVESTMENT` are constructor parameters. The constants module the source imports them from does not define them.
- OrderManagement.OrderManager.UpdateOrder: a `new_signal` dict without a `signal_type` key raises KeyError in the source, and that is not modelled. `Option` covers a missing signal and an empty type.
- OrderManagement.OrderManager: `get_order_summary` and `OrderData.duration` are message formatting and are not modelled.
- Validators.ValidateQuantity: the `1e-8` remainder tolerance is replaced by an exact zero remainder. The model therefore accepts only exact multiples of the step.
- Validators.ParseInt covers ASCII digits and whitespace only. Python's `int()` also accepts Unicode digits and spaces.
- The time-based expiry of orders and the PENDING→OPEN transition are not modelled; the source has neither.
- `market_trend.get_market_state` is not modelled. It calls methods that do not exist.
- OrderModels.OrderData.UpdatePrice: requires a non-zero entry price, because the PnL percentage divides by it (order_data.py:46-48) and no exception is caught there.
- OrderModels.PnlPercentage: requires a non-zero entry price, for the same uncaught division (order_data.py:46-48).
- OrderManagement.OrderManager.UpdateOrder: requires the symbol's order, if any, to have a non-zero entry price, because `update_price` divides by it outside any `try` (order_manager.py:80).
- Entities.TradingPosition.UpdatePnl: requires a non-zero entry price, because `update_pnl` divides by it uncaught (entities.py:144).
- Entities.PositionPnl: requires a non-zero entry price, for the same uncaught division (entities.py:144).
- OrderTracking.OrderTracker.CloseOrder: requires the stored order to have a non-zero entry price, because `calculate_profit_loss` divides by it uncaught (order_tracker.py:145-149).
- OrderTracking.OrderTracker.UpdateOrder: requires the same of the stored order, which it may close (order_tracker.py:91-149). UpdateRunningOrder requires it too.
- OrderTracking.ProfitLoss and OrderTracking.Closed: require a non-zero entry price, for the division at order_tracker.py:147-149.
- MarketTrendAnalysis.MarketTrendAnalyzer.constructor: the API key and secret, `symbol`, `depth_limit` and `price_range_percent` only configure the exchange client and its order-book query, so they are not modelled. A negative `history_size` is out of scope, because the capacity is a `nat`.

## Findings

| source | as written | input that shows it | evidently intended | confidence | as-written member | corrected member |
|---|---|---|---|---|---|---|
| Bot_trading_API_RES/utils/order_tracker.py:91-143 | `update_order` closes whatever order is stored under the symbol, and a closed order stays in `orders`, so a later update closes it again and counts another success or failure | add BTCUSDT LONG at 100 (tp 110, sl 90), then update at 120 and at 121: 1 order, 2 successes, success rate 200% | only a RUNNING order is closed, so successes + failures never exceed the orders added | not executed | OrderTracking.DoubleCloseExample | OrderTracking.OrderTracker.UpdateRunningOrder |
| Bot_trading_API_RES/core/utils/validators.py:92-93 | `re.match(r'^[A-Z0-9]{2,20}$', symbol)` accepts a symbol followed by a newline, because Python's `$` also matches before a final "\n" | "BTCUSDT\n" is accepted | exactly 2–20 characters from A–Z and 0–9 (`\Z` or `fullmatch`) | not executed | Validators.TrailingNewlineSymbolAccepted | Validators.ValidateSymbolCorrected |

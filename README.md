# market-mind-live-signals, modelled in Dafny

This project models the computational core of a crypto trading dashboard. The core has five parts:

- **Indicator engine and labeller.** SMA, RSI, EMA and MACD are computed over the prefix of closes that ends at each bar. A forward-looking ±2% rule gives each bar a BUY/SELL/HOLD label.
- **Classifier bookkeeping.** This covers training-data preparation, the untrained fallback rule and the linear score with its softmax. It also covers the 100-entry buffer of recent predictions, the incremental weight update, the confusion matrix with precision, recall and macro-F1, and the model status.
- **Backtest simulator.** A flat/long state machine runs over the bars, driven by a technical, ML or hybrid signal. It tracks peak and drawdown, force-closes at the end and reduces the trade log to summary metrics.
- **Live signal hook.** The hook builds a per-prefix SMA series, an RSI and bands. Level-based rules produce a signal with a confidence formula, and a history holds the last ten non-HOLD signals.
- **Prediction hook.** It builds a feature vector from a market snapshot and keeps a newest-first history capped at 50. It also gives a strength band and a confidence-based accuracy estimate.

Modelling conventions:

- Prices are `real`.
- `Math.tanh`, `Math.exp`, `Math.sqrt`, `Math.random` and the clock are parameters. Their laws are stated where a proof needs them: `TanhLaws` and `ExpLaws` in `MLModel`.
- JavaScript's `x || d` is `Common.Or`/`Common.OrOpt`: 0, NaN and a missing value all give `d`.
- A 0/0 that JavaScript turns into NaN is `Common.Div` returning `NaN`.

Files and modules:

| file | module | models |
|---|---|---|
| common.dfy | `Common` | `||`, division with NaN, slices, sums, first-match rule lists, capped newest-first histories |
| indicators.dfy | `Indicators` | `src/services/historicalDataService.ts` |
| features.dfy | `Features` | the ten-entry feature vector, which four sites build alike |
| model.dfy | `MLModel` | `src/services/mlModelService.ts` |
| backtest.dfy | `Backtest` | `src/services/backtestingService.ts` |
| live.dfy | `LiveSignals` | `src/hooks/useBinanceData.ts` and its twin `src/hooks/useBinanceData.tsx` |
| predictions.dfy | `PredictionHooks` | `src/hooks/useMLPredictions.ts` |

Imperative operations are methods on classes and are proved against specification functions:

- `MLModel.ModelService` has in-place `weights` in an `array<real>`, and its `recentPredictions` buffer is pushed and shifted.
- `LiveSignals.LiveFeed` holds the hook's state.
- The accumulating loops are all `while` loops: `ComputeRsi`, `ComputeEma`, `PrepareTrainingData`, `CalculateModelScore`, `IncrementalLearning` with `NudgeInPlace`, `CountSamples` (the loop of `evaluateModel`) and `Backtest.SimulateBars`.

## Model

| member | source | states |
|---|---|---|
| Common.Div | src/services/mlModelService.ts:313-315 | a quotient is NaN exactly when the divisor is 0, and otherwise it is the real quotient |
| Common.Or | src/services/backtestingService.ts:139 | `x || d` is `x` when `x` is a non-zero number, and `d` otherwise |
| Common.OrOpt | src/services/mlModelService.ts:243 | `x || d` on an optional field is `x` when it is present and non-zero, and `d` otherwise |
| Common.Last | src/services/historicalDataService.ts:149 | `slice(-n)` keeps the last min(n, length) entries |
| Common.Take | src/hooks/useMLPredictions.ts:98 | `slice(0, n)` keeps the first min(n, length) entries |
| Common.FirstMatch | src/services/backtestingService.ts:145-164 | an if-return chain picks the outcome of the first rule that fires, and the default when none fires |
| Common.PushCapped | src/hooks/useBinanceData.ts:234 | `[x, ...prev.slice(0, cap-1)]` has length min(length+1, cap), starts with x and continues with the start of prev |
| Common.PushAllNewestFirst | src/hooks/useMLPredictions.ts:59 | pushing entries one at a time leaves the newest `cap` entries, newest first, followed by the earlier history |
| Common.SumBounds | src/services/historicalDataService.ts:149 | a sum of n values in [lo, hi] lies in [n·lo, n·hi] |
| Indicators.SmaShortInput | src/services/historicalDataService.ts:147-148 | with fewer prices than the period, the SMA is the last price, or 0 when there are none |
| Indicators.SmaWindowMean | src/services/historicalDataService.ts:149-150 | otherwise the SMA times the period is the sum of the last `period` prices, and the SMA lies between their bounds |
| Indicators.SmaPositive | src/services/historicalDataService.ts:147-151 | positive prices give a positive SMA |
| Indicators.ComputeRsi | src/services/historicalDataService.ts:127-145 | the gains/losses loop returns the RSI function |
| Indicators.RsiCases | src/services/historicalDataService.ts:127-145 | the RSI is 50 with fewer than period+1 prices and 100 with no loss; otherwise it is 100·g/(g+l), which lies in [0, 100) |
| Indicators.RsiRange | src/services/historicalDataService.ts:127-145 | the RSI lies in [0, 100] |
| Indicators.RsiOfRisingWindow | src/services/historicalDataService.ts:133-142 | a window that never falls has RSI 100 |
| Indicators.ComputeEma | src/services/historicalDataService.ts:163-175 | the smoothing loop returns the EMA function: 0 for no prices, and the price itself for one |
| Indicators.EmaBounds | src/services/historicalDataService.ts:163-175 | for period ≥ 1 the EMA lies between the minimum and maximum price |
| Indicators.EmaConstant | src/services/historicalDataService.ts:163-175 | a constant series has that constant as its EMA |
| Indicators.MacdOf | src/services/historicalDataService.ts:153-161 | the MACD line is EMA12 − EMA26; the signal equals the MACD line (the EMA of one value), so the histogram is 0 |
| Indicators.ProcessHistoricalData | src/services/historicalDataService.ts:70-98 | it preserves length and copies the timestamp and close; each point's indicators come from the closes up to it |
| Indicators.NoLookahead | src/services/historicalDataService.ts:78 | a point's indicators do not depend on later klines |
| Indicators.ProcessedSmasPositive | src/services/historicalDataService.ts:80-81 | positive closes give positive SMAs |
| Indicators.LabelHistoricalData | src/services/historicalDataService.ts:101-124 | it preserves length and every other field, and labels every point; the last `lookAhead` points get HOLD with profitability 0; profitability is ≥ 0 |
| Indicators.LabelRule | src/services/historicalDataService.ts:107-121 | a change > 2% gives BUY with profitability equal to the change, a change < −2% gives SELL with its absolute value, and anything else gives HOLD with 0 |
| Features.FeatureVector | src/services/mlModelService.ts:71-82 | the vector has ten entries and the last one is the profitability |
| Features.SnapshotFeatures | src/services/mlModelService.ts:232-245 | the vector of a record with optional fields: each entry is the field, its `||` fallback, or 0 for a ratio whose operand is missing; a missing SMA20 makes the trend entry 0, not −1 |
| Features.FeatureFallbacks | src/services/mlModelService.ts:71-82 | each `||` fallback: RSI 0 reads as 50, an SMA of 0 reads as the price, and a ratio over a zero SMA reads as 0 |
| MLModel.Labeled | src/services/mlModelService.ts:71 | only labelled points are kept |
| MLModel.LabelValue | src/services/mlModelService.ts:88-89 | the label maps to −1, 0 or 1 |
| MLModel.PrepareTrainingData | src/services/mlModelService.ts:67-95 | it emits one ten-entry vector and one label in {−1, 0, 1} per labelled point, in order; the outputs have equal length, at most the input's |
| MLModel.FallbackPrediction | src/services/mlModelService.ts:177-202 | BUY at 70 iff rsi < 30 and trend > 0; SELL at 70 iff rsi > 70 and trend < 0; HOLD at 60 otherwise; the probabilities sum to 100, the chosen one equals the confidence and the others split the rest |
| MLModel.FallbackConfidenceAtMost70 | src/services/mlModelService.ts:183-190 | the fallback confidence never exceeds 70 |
| MLModel.Max3 | src/services/mlModelService.ts:124 | `Math.max` of three values is one of them and at least each |
| MLModel.Softmax | src/services/mlModelService.ts:170-175 | given a positive exp, the three probabilities are positive and sum to 1 |
| MLModel.ArgMax | src/services/mlModelService.ts:127-129 | the chosen action carries the largest probability, and ties go to the first: BUY iff buy ≥ sell and buy ≥ hold; SELL iff buy < sell ≥ hold; HOLD iff hold beats both |
| MLModel.TrainedPrediction | src/services/mlModelService.ts:120-139 | the probabilities (in percent) sum to 100, the confidence is the chosen action's probability, and it lies in (0, 100] |
| MLModel.TrainedPredictionIgnoresScore | src/services/mlModelService.ts:121 | softmax of [s+0.1, s−0.1, s] does not depend on s |
| MLModel.SoftmaxAtZeroRanks | src/services/mlModelService.ts:121-124 | under the laws of exp, sell < hold < buy < 0.7 |
| MLModel.TrainedPredictionConstant | src/services/mlModelService.ts:120-139 | a trained model's prediction is the same for every score |
| MLModel.TrainedPredictionIsWeakBuy | src/services/mlModelService.ts:120-129 | a trained model always predicts BUY, with confidence below 70 |
| MLModel.Remember | src/services/mlModelService.ts:142-150 | the buffer never exceeds 100 entries |
| MLModel.RememberKeepsNewest | src/services/mlModelService.ts:142-150 | the buffer keeps the last 100 records and the new one is last; below capacity it is appended, at capacity the oldest is evicted |
| MLModel.RememberAll | src/services/mlModelService.ts:259-260 | repeated pushes stay within 100 entries |
| MLModel.Nudge | src/services/mlModelService.ts:220-222 | the weights keep their length and each w_i becomes w_i + step·f_i |
| MLModel.DotAfterNudge | src/services/mlModelService.ts:163-164 | after the nudge, the dot product grows by step·Σf_i² |
| MLModel.ScaledSquaresIsProduct | src/services/mlModelService.ts:220-222 | the per-weight gains step·f_i² sum to step·Σf_i² |
| MLModel.DotShift | src/services/mlModelService.ts:220-222 | moving every weight by step·f_i moves the dot product by Σ step·f_i² |
| MLModel.ScaledSquaresSign | src/services/mlModelService.ts:220-222 | those gains have the sign of the step |
| MLModel.UpdateMovesTowardTarget | src/services/mlModelService.ts:216-224 | the linear score after the update is the old one plus step plus Σ step·f_i² (that is, step·(1+Σf_i²)), so it rises for a positive error and falls for a negative one |
| MLModel.NudgeInPlace | src/services/mlModelService.ts:220-222 | the in-place weight loop leaves exactly the nudged weights w_i + step·f_i |
| MLModel.ExtractFeatures | src/services/mlModelService.ts:232-245 | the live sample gives a ten-entry vector: missing or zero RSI gives 50, missing or zero SMAs give the price, MACD, signal, histogram and volume give their value or 0, the price/SMA20 ratio over a missing or zero SMA20 is 0, the SMA20/SMA50 trend is 0 when SMA20 or SMA50 is missing or SMA50 is 0, and the last entry is the profitability or 0 |
| MLModel.TallyCounts | src/services/mlModelService.ts:296-309 | `Tally`, the confusion-matrix update: a match adds one tp to its class; a mismatch adds one fp to the predicted class and one fn to the actual class; the third class is unchanged |
| MLModel.TallyAllTotals | src/services/mlModelService.ts:259-277 | over a whole evaluation at one predicted action, Σtp counts the samples labelled with it and Σtp+Σfp = Σtp+Σfn = n |
| MLModel.ProfitableDraws | src/services/mlModelService.ts:268-273 | the profitable simulated trades are at most the trades |
| MLModel.TallyTotals | src/services/mlModelService.ts:296-309 | both Σtp+Σfp and Σtp+Σfn grow by exactly one per update, and Σtp grows exactly on a match |
| MLModel.Precision | src/services/mlModelService.ts:311-317 | per-class precision lies in [0, 1], is 0 iff tp = 0, and is otherwise tp/(tp+fp) |
| MLModel.Recall | src/services/mlModelService.ts:319-325 | per-class recall lies in [0, 1], is 0 iff tp = 0, and is otherwise tp/(tp+fn) |
| MLModel.F1Bounds | src/services/mlModelService.ts:328-330 | a per-class F1 lies in [0, 1], is 0 when P or R is 0, and is otherwise 2PR/(P+R) |
| MLModel.ScoresInRange | src/services/mlModelService.ts:327-333 | every precision and recall, and the macro F1 (the mean of the three F1s), lie in [0, 1] |
| MLModel.CountActual | src/services/mlModelService.ts:261-265 | the count of matches never exceeds the number of samples |
| MLModel.ModelService.constructor | src/services/mlModelService.ts:24-34 | no model, not training, empty history and prediction buffer |
| MLModel.ModelService.CalculateModelScore | src/services/mlModelService.ts:159-168 | the loop gives 0 without a model, otherwise tanh(bias + Σ over min(len) of f_i·w_i); under the laws of tanh it lies in (−1, 1) |
| MLModel.ModelService.Predict | src/services/mlModelService.ts:112-157 | without a model it returns the fallback and leaves the buffer alone; with a model it returns the softmax prediction and pushes it into the buffer |
| MLModel.ModelService.IncrementalLearning | src/services/mlModelService.ts:204-230 | it is a no-op without a model, while training, or without a label; otherwise every weight gets w_i += 0.01·(target−score)·f_i and the bias gets += 0.01·(target−score) |
| MLModel.ModelService.EvaluateModel | src/services/mlModelService.ts:247-294 | without a model it returns the default metrics and leaves the buffer alone; otherwise all rates lie in [0, 1] and the result is `EvaluationMetrics` of the loop's totals for the model's constant action a: hits = the samples labelled a, the matrix `TallyAll`, n trades (0 when a is HOLD) whose roi is the sum of the n simulated draws and whose profitable count is the positive draws; so accuracy = hits/n (NaN for n = 0), winRate = profitable/trades (0 without trades), and precision, recall and F1 come from the tallied matrix; the buffer receives n records |
| MLModel.ModelService.CountSamples | src/services/mlModelService.ts:259-277 | the loop counts as hits the samples labelled with the model's action; it makes n trades unless that action is HOLD, with roi `TotalRoi` and profitable count `ProfitableDraws` of the draws; its matrix is `TallyAll`, whose Σtp is the hits and Σtp+Σfp = Σtp+Σfn = n; n records are pushed |
| MLModel.ModelService.PredictSample | src/services/mlModelService.ts:260 | each `predict` of the loop gives the constant action and pushes its record |
| MLModel.EvaluationMetrics | src/services/mlModelService.ts:279-293 | accuracy = correct/n (NaN for n = 0), winRate = profitable/trades (0 without trades), precision and recall from the matrix, F1 from those, the counters and roi copied, every rate in [0, 1] |
| MLModel.ModelService.StartTraining | src/services/mlModelService.ts:43-45 | the training flag is raised |
| MLModel.ModelService.CompleteTraining | src/services/mlModelService.ts:47-63 | the weights are random(i)·2−1, 10 of them (none without samples), and the bias likewise, the model is set, one in-range metrics record is appended, and the flag is lowered |
| MLModel.ModelService.BuildModel | src/services/mlModelService.ts:96-108 | a fresh weight array of the feature count's length with weight i = random(i)·2−1, bias from the next draw, the model set and its training size recorded |
| MLModel.ModelService.EvaluateAndLog | src/services/mlModelService.ts:54-55 | the evaluation's in-range metrics are appended to the history, which keeps its prefix; its records are pushed into the buffer |
| MLModel.ModelService.TrainModel | src/services/mlModelService.ts:43-65 | afterwards the model exists with weights random(i)·2−1 (10 of them, none without samples) and the next draw as bias, the flag is down, the training size is the labelled count, the buffer holds the evaluation's records, and the history has kept its prefix and gained one in-range metrics record |
| MLModel.ModelService.GetModelStatus | src/services/mlModelService.ts:348-355 | the status exposes the flags, the history and at most the last 10 buffered predictions |
| Backtest.TechnicalSignalIsFirstMatch | src/services/backtestingService.ts:138-165 | the technical signal is the first of the four rules that fires, or HOLD |
| Backtest.TechnicalSignalsAreCrossings | src/services/backtestingService.ts:138-165 | every technical BUY is an upward crossing (price over SMA20 or SMA20 over SMA50) between the two bars, every SELL a downward one, and an unchanged bar gives HOLD |
| Backtest.TechnicalZeroRsiIsNeutral | src/services/backtestingService.ts:139 | a zero RSI reads as 50 and cannot trigger the RSI rules |
| Backtest.MlFeatures | src/services/backtestingService.ts:169-180 | the ML signal's vector has ten entries and profitability 0 |
| Backtest.MlSignal | src/services/backtestingService.ts:182-189 | it acts on the prediction only when its confidence is strictly above 70, else HOLD |
| Backtest.FallbackIsSilent | src/services/mlModelService.ts:187-190 | the untrained predictor never exceeds 70 |
| Backtest.TrainedIsSilent | src/services/mlModelService.ts:120-124 | a trained predictor never exceeds 70 either |
| Backtest.CombineSignals | src/services/backtestingService.ts:196-211 | agreement acts, a HOLD defers to the other side, and a conflict between BUY and SELL holds |
| Backtest.CombineSignalsCommutes | src/services/backtestingService.ts:196-211 | the combiner is symmetric |
| Backtest.SilentPredictorSignals | src/services/backtestingService.ts:121-131 | with a silent predictor, ML gives HOLD and hybrid equals technical |
| Backtest.ProcessSignal | src/services/backtestingService.ts:213-252 | a trade exists iff BUY while flat or SELL while long; BUY gets floor(0.95·capital/price) units and pnl 0; SELL gets the position's quantity and pnl (price−entry)·quantity |
| Backtest.Apply | src/services/backtestingService.ts:69-90 | the trade step leaves the peak and drawdown alone |
| Backtest.Track | src/services/backtestingService.ts:92-99 | the drawdown step keeps capital, position and log, and never lowers the peak or the maximum drawdown |
| Backtest.Finish | src/services/backtestingService.ts:102-110 | the forced close does not touch the drawdown and is a no-op when flat |
| Backtest.Completed | src/services/backtestingService.ts:262 | the completed trades are SELLs |
| Backtest.WinningPlusLosing | src/services/backtestingService.ts:263-264 | winning + losing ≤ completed |
| Backtest.GrossProfit | src/services/backtestingService.ts:267 | gross profit is ≥ 0 and positive only when some trade wins |
| Backtest.GrossLoss | src/services/backtestingService.ts:268 | gross loss is ≥ 0 and positive only when some trade loses |
| Backtest.ProfitFactor | src/services/backtestingService.ts:269 | it is profit/loss when there is a loss, else 10 when there is a profit, else 1; it is never negative |
| Backtest.TotalReturn | src/services/backtestingService.ts:261 | the total return is NaN iff the initial capital is 0, and otherwise totalReturn·initial = final − initial |
| Backtest.AvgTradeReturn | src/services/backtestingService.ts:271-273 | 0 without SELLs; with SELLs, NaN iff the capital is 0, and otherwise the mean of the per-trade returns |
| Backtest.TradeSharpe | src/services/backtestingService.ts:276-279 | for a zero capital every return is NaN, and the `|| 0`, `|| 1` fallbacks give a Sharpe ratio of 0 |
| Backtest.CalculateMetrics | src/services/backtestingService.ts:254-293 | totalTrades counts BUYs and SELLs; winning and losing count the SELLs with positive and negative PnL, and their sum is ≤ SELLs; winRate lies in [0, 1] and is 0 without SELLs; the total return, average return, Sharpe ratio and profit factor are as above |
| Backtest.ExecuteSignal | src/services/backtestingService.ts:69-90 | the trading part of one iteration reaches the `Apply` state: an accepted BUY or SELL is logged, its pnl booked and the position opened or closed |
| Backtest.TrackDrawdown | src/services/backtestingService.ts:92-99 | the drawdown part of one iteration reaches the `Track` state |
| Backtest.SimulateBars | src/services/backtestingService.ts:55-100 | the loop over bars 1..n−1 reaches the replayed state (bar 0 is never traded) |
| Backtest.ForceClose | src/services/backtestingService.ts:102-110 | the close after the loop leaves the trade log and capital that `Finish` states |
| Backtest.RunBacktest | src/services/backtestingService.ts:52-113 | the result is the metrics of the replayed run after the forced close |
| Backtest.ReplayInvariant | src/services/backtestingService.ts:55-100 | after every bar, over positive closes: trades alternate BUY/SELL and pair up; a position is open iff the log is odd and matches the last BUY; capital = initial + Σpnl > 0; the position cost ≤ 95% of the capital; peak ≥ capital and 0 ≤ drawdown < 1 |
| Backtest.DrawdownMonotone | src/services/backtestingService.ts:93-99 | the peak and the maximum drawdown never decrease over the bars |
| Backtest.AlternatingSells | src/services/backtestingService.ts:262 | an alternating log holds ⌊n/2⌋ SELLs |
| Backtest.PnlSumIsNet | src/services/backtestingService.ts:267-268 | with BUY pnl 0, Σpnl is gross profit − gross loss |
| Backtest.RunEndsFlat | src/services/backtestingService.ts:102-110 | when the run returns, the log alternates, pairs up and has even length (#BUY = #SELL); the final capital is initial + gross profit − gross loss, and positive |
| Backtest.ReplayIsCausal | src/services/backtestingService.ts:62-64 | the state after bar n−1 depends on bars 0..n−1 only |
| Backtest.SilentMlNeverTrades | src/services/backtestingService.ts:182-189 | with the untrained (or a trained) model, the ML strategy makes no trade and keeps its capital |
| Backtest.SilentHybridIsTechnical | src/services/backtestingService.ts:128-131 | with such a model, hybrid runs exactly as technical |
| Backtest.PennilessReplay | src/services/backtestingService.ts:55-100 | from zero capital every bar keeps capital, peak and drawdown at 0, holds 0 units and logs only zero PnL |
| Backtest.ZeroCapitalRun | src/services/backtestingService.ts:52-113 | a backtest from zero capital ends with capital 0 and no PnL: totalReturn NaN, Sharpe 0, no winning or losing trade, profit factor 1 |
| Backtest.RoundTripExample | src/services/backtestingService.ts:225-239 | 10000 at price 100 buys 95 units; selling at 110 makes 950 |
| Backtest.ZeroQuantityPosition | src/services/backtestingService.ts:223-234 | a capital below price/0.95 opens a long of 0 units |
| LiveSignals.ProcessKlines | src/hooks/useBinanceData.ts:127-144 | the series preserves length; each point's SMA20/SMA50 come from the closes up to it |
| LiveSignals.SeriesIsCausal | src/hooks/useBinanceData.ts:133 | a point depends on earlier klines only |
| LiveSignals.EarlySmaIsPrice | src/hooks/useBinanceData.ts:77-78 | before the 20th (50th) kline, a point's SMA20 (SMA50) is its own close |
| LiveSignals.BandsOf | src/hooks/useBinanceData.ts:168-173 | middle = SMA20, upper = 1.02·SMA20, lower = 0.98·SMA20; lower ≤ middle ≤ upper iff SMA20 ≥ 0 |
| LiveSignals.Cap90 | src/hooks/useBinanceData.ts:202 | `Math.min(90, x)` |
| LiveSignals.ClassifyCases | src/hooks/useBinanceData.ts:195-216 | the first-match rule list is the source's else-if chain, with HOLD at 50 as default |
| LiveSignals.VerdictRanges | src/hooks/useBinanceData.ts:200-215 | RSI rules give confidence in (60, 90], trend rules 70 and HOLD 50; BUY always has price > SMA20 and SELL price < SMA20 |
| LiveSignals.PriceOnSmaHolds | src/hooks/useBinanceData.ts:200-216 | a price on its SMA20 never signals |
| LiveSignals.SignalOf | src/hooks/useBinanceData.ts:218-226 | the signal carries the latest price and the clock |
| LiveSignals.UpdateHistory | src/hooks/useBinanceData.ts:232-235 | HOLD leaves the history alone; otherwise the signal is prepended and the history is capped at 10 |
| LiveSignals.NonHold | src/hooks/useBinanceData.ts:233 | the filtered signals are non-HOLD |
| LiveSignals.SignalHistoryNewestFirst | src/hooks/useBinanceData.ts:232-235 | after any run of signals, the history is the newest ten non-HOLD ones, newest first |
| LiveSignals.TwinsAgree | src/hooks/useBinanceData.tsx:109-157 | on the same parsed klines the two copies give the same state on every non-empty batch; on an empty one only the price series differs |
| LiveSignals.RefreshKeepsConsistent | src/hooks/useBinanceData.ts:149-178 | a refresh keeps ≤ 10 history entries, none HOLD, and a zero MACD indicator |
| LiveSignals.RefreshFacts | src/hooks/useBinanceData.ts:149-178 | the last kline gives the current price, the RSI lies in [0, 100], the current signal is the verdict on the latest point and heads the history unless it is HOLD |
| LiveSignals.ShortFeedSentinels | src/hooks/useBinanceData.ts:77-101 | with < 15 klines the RSI is 50; with < 20 the middle band equals the price and the signal is always HOLD |
| LiveSignals.LiveFeed.constructor | src/hooks/useBinanceData.ts:56-75 | the hook's initial state |
| LiveSignals.LiveFeed.GenerateTradingSignal | src/hooks/useBinanceData.ts:190-236 | the locals set by the else-if chain make the current signal, which heads the capped history unless it is HOLD |
| LiveSignals.LiveFeed.FetchKlineData | src/hooks/useBinanceData.ts:117-178 | the handler's new state is `Refresh` of the old one (the `.tsx` variant empties the series on an empty batch) |
| PredictionHooks.PredictionFeatures | src/hooks/useMLPredictions.ts:34-45 | the vector has ten entries and a last entry of 0; missing or zero RSI gives 50, SMAs fall back to the price, volume to 0, the price/SMA20 ratio over a missing or zero SMA20 is 0, and the SMA20/SMA50 trend is 0 when SMA20 or SMA50 is missing or SMA50 is 0 |
| PredictionHooks.Record | src/hooks/useMLPredictions.ts:56-61 | the prediction becomes current and heads the history, capped at 50 |
| PredictionHooks.PredictionHistoryNewestFirst | src/hooks/useMLPredictions.ts:56-61 | after any run, the history is the newest 50, newest first, and the current prediction is its head |
| PredictionHooks.MakePrediction | src/hooks/useMLPredictions.ts:30-70 | the snapshot's features go to the service: untrained, the fallback and an unchanged buffer; trained, the softmax prediction, pushed into the buffer; the result is stamped and recorded |
| PredictionHooks.CheckModelStatus | src/hooks/useMLPredictions.ts:72-78 | ready iff trained and not training |
| PredictionHooks.GetSignalStrength | src/hooks/useMLPredictions.ts:87-93 | WEAK without a prediction; STRONG iff ≥ 80; MODERATE iff in [60, 80); WEAK iff < 60 |
| PredictionHooks.StrengthMonotone | src/hooks/useMLPredictions.ts:87-93 | the strength is monotone in confidence |
| PredictionHooks.FallbackIsModerate | src/hooks/useMLPredictions.ts:90-91 | untrained predictions are always MODERATE |
| PredictionHooks.GetRecentAccuracy | src/hooks/useMLPredictions.ts:95-104 | 0 on an empty history and never above 95 |
| PredictionHooks.RecentAccuracyBounds | src/hooks/useMLPredictions.ts:98-103 | with confidences in [0, 100] the estimate lies in [0, 80], and it only sees the newest ten |

## Left out

- Network I/O and caching: the Binance `fetch`, URL building, HTTP errors, the `cache` map and its hit path. Klines arrive as a parameter.
- Parsing and formatting. These are foreign calls:
  - `parseFloat` of kline fields, and how each copy of the live hook reads them: the `.ts` hook reads the array positions `kline[4]`, `kline[5]`, `kline[6]`, the `.tsx` hook the named fields `kline.close`, `kline.volume`, `kline.closeTime`; on Binance's array payload the named fields are missing and the `.tsx` hook's prices are NaN. Both copies take the already parsed klines;
  - dates and their string forms;
  - the display `time` of a live point;
  - the `reason` strings (modelled as an enumeration, or the entry price of a close);
  - `symbol.replace`.
- The clock is a parameter read once per operation:
  - signal `id` and `timestamp` are both the one clock value;
  - MLModel.ModelService.EvaluateModel stamps all n prediction records with one `now`, where the source reads `Date.now()` at each `predict` (src/services/mlModelService.ts:144);
  - PredictionHooks.MakePrediction uses its one `stamp` for the service's prediction record and for the hook's `timestamp` (src/hooks/useMLPredictions.ts:51), two separate `Date.now()` reads in the source; `lastUpdate` is its own parameter.
- MLModel.ExtractFeatures: a sample carries each indicator as a number or leaves it out. The live caller passes `{...currentData, features}` (src/hooks/useMLTrading.ts:122-125), whose `macd` is the nested MACD record and which has no top-level `signal` or `histogram`; there, JavaScript puts that record object in entry 3, and entries 4 and 5 read 0. A record-valued field is not modelled.
- `Math.tanh`, `Math.exp` and `Math.sqrt` are parameters. IEEE floating point is not modelled beyond explicit `|| default` fallbacks and 0/0. A non-zero value over 0 would be ±Infinity in JavaScript; the model treats it as NaN. It is reached in three places:
  - the feature ratios over a zero SMA, which `||` keeps as Infinity where the model's feature reads 0;
  - Backtest.Track: the drawdown (peak − capital)/peak when the peak is 0 and the capital below it, which JavaScript records as an Infinity drawdown and the model does not record; this needs a negative initial capital, since a zero one never moves (Backtest.ZeroCapitalRun);
  - Backtest.CalculateMetrics: with initial capital 0, a non-zero final capital or PnL over it; a run never produces one (Backtest.ZeroCapitalRun), so for runs the NaN results are exact.
- Indicators.LabelOf, Backtest.ProcessSignal and Backtest.Replay require non-zero closes, because they divide by the close. The run invariants require positive closes, which Binance prices are.
- `Math.random` is a parameter: a stream indexed by position, for the weights, the bias and the simulated ROI. The simulated training delay is left out.
- MLModel.ModelService.EvaluateModel: `roi` is tied to the draws (`TotalRoi`) but not bounded, since the draws are an unconstrained parameter.
- MLModel.Tally: the confusion matrix of `evaluateModel` is a local record that nothing else aliases, so it is modelled as a value (`Confusion`) that each update replaces; the in-place mutation of the record is not modelled.
- React plumbing and orchestration are left out: `useState`/`useEffect`, intervals, async sequencing, `useMLTrading.ts` and `useTradingData.tsx`. State setters are modelled as direct updates.
- The concurrency role of `isTraining` is left out. Training is split into StartTraining and CompleteTraining to show the window in which the flag is raised.
- Presentation components and the `getInstance` singletons are left out. Instances are passed explicitly.
- Backtest.MlSignal: the predictor is a function parameter. The service's prediction buffer is therefore not updated by a backtest.
- Backtest.GenerateSignal: the `default: return null` branch of an unknown strategy is not modelled, because `Strategy` has three cases.
- The error path of `makePrediction` (a thrown prediction gives null) is not modelled, because the modelled service cannot throw.

## Where the code and its description differ

- The description says an open position always has a positive quantity. The code opens with `floor(0.95·capital/price)` units, which is 0 when the capital is below price/0.95. Such a position logs a BUY and blocks later BUYs while holding nothing (Backtest.ZeroQuantityPosition). The model follows the code.
- A trained model cannot make the ML strategy trade. The predictor's softmax over [s+0.1, s−0.1, s] does not depend on s, so it always says BUY with a confidence of about 37%. That is never above 70, and the untrained fallback reaches exactly 70 (Backtest.SilentMlNeverTrades, MLModel.TrainedPredictionIsWeakBuy).
- The `.ts` live hook returns on an empty batch. The `.tsx` hook stores the empty series. Given the same parsed klines the two copies are otherwise the same (LiveSignals.TwinsAgree); they read the kline payload differently, see "## Left out".
- With fewer than 20 klines the live hook's SMA20 is the latest price, so it only ever emits HOLD (LiveSignals.ShortFeedSentinels). The `.ts` hook fetches 50 klines and the `.tsx` hook 100.

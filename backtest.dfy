/** The backtest simulator: a flat/long state machine driven by a trading
    signal over the historical bars, with peak and drawdown tracking, a forced
    close at the end, and the reduction of the trade log to summary metrics.
    The ML signal takes its prediction from a predictor parameter, and the
    Sharpe ratio's square root is a parameter. */
module Backtest {
  import opened Common
  import opened Features
  import opened Indicators
  import opened MLModel

  datatype Strategy = MlStrategy | Technical | Hybrid

  /** An open long position, or the flat one (`isOpen` false, all zero). */
  datatype Position = Position(isOpen: bool, entryPrice: real, entryTime: int, quantity: int)

  /** Why a trade was made: opening a long, or closing one entered at a price. */
  datatype Reason = OpenLong | CloseLong(entry: real)

  datatype Trade = Trade(time: int, side: Action, price: real, quantity: int, pnl: real, reason: Reason)

  /** The loop state of `runBacktest`. */
  datatype SimState = SimState(capital: real, position: Position, trades: seq<Trade>,
                               maxCapital: real, maxDrawdown: real)

  datatype BacktestResults = BacktestResults(
    totalReturn: Number, totalTrades: nat, winningTrades: nat, losingTrades: nat,
    winRate: real, maxDrawdown: real, sharpeRatio: real, profitFactor: real,
    avgTradeReturn: Number, trades: seq<Trade>)

  const Flat := Position(false, 0.0, 0, 0)

  /** Share of the capital a new position uses. */
  const Exposure: real := 0.95

  // ------------------------------------------------ signals

  /** The rule list of `technicalSignal`, in priority order. */
  function TechnicalRules(cur: DataPoint, prev: DataPoint): seq<Rule<Action>>
  {
    var rsi := Or(Finite(cur.rsi), 50.0);
    [Rule(rsi < 30.0 && cur.close > cur.sma20 && prev.close <= prev.sma20, Buy),
     Rule(rsi > 70.0 && cur.close < cur.sma20 && prev.close >= prev.sma20, Sell),
     Rule(cur.sma20 > cur.sma50 && prev.sma20 <= prev.sma50, Buy),
     Rule(cur.sma20 < cur.sma50 && prev.sma20 >= prev.sma50, Sell)]
  }

  /** `technicalSignal`: an oversold cross above SMA20 buys, an overbought
      cross below it sells, then a golden cross buys and a death cross sells. */
  function TechnicalSignal(cur: DataPoint, prev: DataPoint): Action
  {
    var rsi := Or(Finite(cur.rsi), 50.0);
    var price := cur.close;
    if rsi < 30.0 && price > cur.sma20 && prev.close <= prev.sma20 then Buy
    else if rsi > 70.0 && price < cur.sma20 && prev.close >= prev.sma20 then Sell
    else if cur.sma20 > cur.sma50 && prev.sma20 <= prev.sma50 then Buy
    else if cur.sma20 < cur.sma50 && prev.sma20 >= prev.sma50 then Sell
    else Hold
  }

  /** The technical signal is the first rule that fires, HOLD when none does. */
  lemma TechnicalSignalIsFirstMatch(cur: DataPoint, prev: DataPoint)
    ensures TechnicalSignal(cur, prev) == FirstMatch(TechnicalRules(cur, prev), Hold)
  {
    var rules := TechnicalRules(cur, prev);
    if !rules[0].fires && !rules[1].fires && !rules[2].fires && !rules[3].fires {
      assert forall i :: 0 <= i < |rules| ==> !rules[i].fires;
    }
  }

  /** A zero RSI is read as the neutral 50, so it can never meet the RSI rules. */
  lemma TechnicalZeroRsiIsNeutral(cur: DataPoint, prev: DataPoint)
    requires cur.rsi == 0.0
    ensures TechnicalSignal(cur, prev) == TechnicalSignal(cur.(rsi := 50.0), prev)
    ensures !TechnicalRules(cur, prev)[0].fires && !TechnicalRules(cur, prev)[1].fires
  {
  }

  /** Every technical BUY is an upward crossing (of the price over SMA20, or
      of SMA20 over SMA50) between the two bars, and every SELL a downward
      one; so a bar repeated unchanged never signals. */
  lemma TechnicalSignalsAreCrossings(cur: DataPoint, prev: DataPoint)
    ensures TechnicalSignal(cur, prev) == Buy ==>
      (cur.close > cur.sma20 && prev.close <= prev.sma20) || (cur.sma20 > cur.sma50 && prev.sma20 <= prev.sma50)
    ensures TechnicalSignal(cur, prev) == Sell ==>
      (cur.close < cur.sma20 && prev.close >= prev.sma20) || (cur.sma20 < cur.sma50 && prev.sma20 >= prev.sma50)
    ensures TechnicalSignal(cur, cur) == Hold
  {
  }

  /** The features the ML signal sends to the predictor (profitability 0). */
  function MlFeatures(cur: DataPoint): (f: seq<real>)
    ensures |f| == FeatureCount && f[9] == 0.0
  {
    FeatureVector(cur.rsi, cur.sma20, cur.sma50, cur.macd, cur.signal, cur.histogram,
                  cur.volume, cur.close, 0.0)
  }

  /** `mlSignal`: the predicted action when its confidence exceeds 70, else HOLD. */
  function MlSignal(cur: DataPoint, predict: seq<real> -> Prediction): (r: Action)
    ensures var p := predict(MlFeatures(cur));
      (p.confidence > 70.0 ==> r == p.action) && (p.confidence <= 70.0 ==> r == Hold)
  {
    var prediction := predict(MlFeatures(cur));
    if prediction.confidence > 70.0 then prediction.action else Hold
  }

  /** A predictor that never reports a confidence above 70. */
  ghost predicate Silent(predict: seq<real> -> Prediction)
  {
    forall f :: predict(f).confidence <= 70.0
  }

  /** The untrained fallback is silent: its confidence is at most 70. */
  lemma FallbackIsSilent()
    ensures Silent(FallbackPrediction)
  {
    forall f: seq<real> ensures FallbackPrediction(f).confidence <= 70.0 {
      FallbackConfidenceAtMost70(f);
    }
  }

  /** A trained model is silent too: under the laws of exp its softmax
      confidence is below 70 whatever the score. */
  lemma TrainedIsSilent(exp: real -> real, score: seq<real> -> real)
    requires ExpLaws(exp)
    ensures forall f :: TrainedPrediction(exp, score(f)).confidence <= 70.0
  {
    forall f: seq<real> ensures TrainedPrediction(exp, score(f)).confidence <= 70.0 {
      TrainedPredictionIsWeakBuy(exp, score(f));
    }
  }

  /** `combineSignals`: agreement acts, a HOLD defers to the other side, a
      conflict holds. */
  function CombineSignals(tech: Action, ml: Action): (r: Action)
    ensures tech == ml ==> r == tech
    ensures tech == Hold ==> r == ml
    ensures ml == Hold ==> r == tech
    ensures tech != Hold && ml != Hold && tech != ml ==> r == Hold
  {
    if tech == ml && tech != Hold then tech
    else if tech == Hold then ml
    else if ml == Hold then tech
    else Hold
  }

  /** The combiner is symmetric. */
  lemma CombineSignalsCommutes(a: Action, b: Action)
    ensures CombineSignals(a, b) == CombineSignals(b, a)
  {
  }

  /** `generateSignal` for a strategy. */
  function GenerateSignal(strategy: Strategy, cur: DataPoint, prev: DataPoint,
                          predict: seq<real> -> Prediction): Action
  {
    match strategy
    case Technical => TechnicalSignal(cur, prev)
    case MlStrategy => MlSignal(cur, predict)
    case Hybrid => CombineSignals(TechnicalSignal(cur, prev), MlSignal(cur, predict))
  }

  /** With a silent predictor the ML strategy never acts and the hybrid
      strategy is the technical one. */
  lemma SilentPredictorSignals(predict: seq<real> -> Prediction, cur: DataPoint, prev: DataPoint)
    requires Silent(predict)
    ensures GenerateSignal(MlStrategy, cur, prev, predict) == Hold
    ensures GenerateSignal(Hybrid, cur, prev, predict) == GenerateSignal(Technical, cur, prev, predict)
  {
    assert predict(MlFeatures(cur)).confidence <= 70.0;
  }

  // ------------------------------------------------ trades

  /** The PnL of closing `quantity` units bought at `entry` and sold at `exit`. */
  function ClosePnl(entry: real, exit: real, quantity: int): real
  {
    (exit - entry) * quantity as real
  }

  /** `processSignal`: BUY while flat opens with floor(0.95 * capital / price)
      units at no PnL; SELL while long closes the whole position at
      (price - entry) * quantity; anything else makes no trade. */
  function ProcessSignal(signal: Action, bar: DataPoint, position: Position, capital: real): (r: Option<Trade>)
    requires signal == Buy && !position.isOpen ==> bar.close != 0.0
    ensures r.Some? <==> (signal == Buy && !position.isOpen) || (signal == Sell && position.isOpen)
    ensures r.Some? ==> r.value.side == signal && r.value.price == bar.close && r.value.time == bar.timestamp
    ensures r.Some? && signal == Buy ==>
      r.value.pnl == 0.0 && r.value.quantity == ((capital * Exposure) / bar.close).Floor && r.value.reason == OpenLong
    ensures r.Some? && signal == Sell ==>
      r.value.quantity == position.quantity && r.value.reason == CloseLong(position.entryPrice) &&
      r.value.pnl == ClosePnl(position.entryPrice, bar.close, position.quantity)
  {
    var price := bar.close;
    var date := bar.timestamp;
    if signal == Buy && !position.isOpen then
      var quantity := ((capital * Exposure) / price).Floor;
      Some(Trade(date, Buy, price, quantity, 0.0, OpenLong))
    else if signal == Sell && position.isOpen then
      var pnl := ClosePnl(position.entryPrice, price, position.quantity);
      Some(Trade(date, Sell, price, position.quantity, pnl, CloseLong(position.entryPrice)))
    else None
  }

  /** The trade step of one bar: a non-HOLD signal that makes a trade logs
      it, adds its PnL to the capital and opens or closes the position. */
  function Apply(s: SimState, signal: Action, bar: DataPoint): (r: SimState)
    requires bar.close != 0.0
    ensures r.maxCapital == s.maxCapital && r.maxDrawdown == s.maxDrawdown
  {
    if signal == Hold then s
    else match ProcessSignal(signal, bar, s.position, s.capital)
      case None => s
      case Some(trade) =>
        s.(trades := s.trades + [trade],
           capital := s.capital + trade.pnl,
           position :=
             if signal == Buy && !s.position.isOpen then Position(true, bar.close, bar.timestamp, trade.quantity)
             else if signal == Sell && s.position.isOpen then Flat
             else s.position)
  }

  /** The drawdown step of one bar: raise the peak to the capital, and the
      maximum drawdown to (peak - capital) / peak. */
  function Track(s: SimState): (r: SimState)
    ensures r.capital == s.capital && r.position == s.position && r.trades == s.trades
    ensures r.maxCapital >= s.maxCapital && r.maxCapital >= s.capital
    ensures r.maxDrawdown >= s.maxDrawdown
  {
    var maxCapital := if s.capital > s.maxCapital then s.capital else s.maxCapital;
    var currentDrawdown := Div(maxCapital - s.capital, maxCapital);
    s.(maxCapital := maxCapital,
       maxDrawdown := if currentDrawdown.Finite? && currentDrawdown.value > s.maxDrawdown
                      then currentDrawdown.value else s.maxDrawdown)
  }

  /** One iteration of the loop of `runBacktest`, bar `cur` after bar `prev`. */
  function Step(s: SimState, cur: DataPoint, prev: DataPoint, strategy: Strategy,
                predict: seq<real> -> Prediction): SimState
    requires cur.close != 0.0
  {
    Track(Apply(s, GenerateSignal(strategy, cur, prev, predict), cur))
  }

  function Initial(initialCapital: real): SimState
  {
    SimState(initialCapital, Flat, [], initialCapital, 0.0)
  }

  ghost predicate ClosesNonZero(bars: seq<DataPoint>)
  {
    forall i :: 0 <= i < |bars| ==> bars[i].close != 0.0
  }

  /** The loop state after bars 1 .. n-1 (bar 0 only serves as the previous
      bar of bar 1). */
  function Replay(bars: seq<DataPoint>, strategy: Strategy, predict: seq<real> -> Prediction,
                  initialCapital: real, n: nat): SimState
    requires n <= |bars| && ClosesNonZero(bars)
  {
    if n <= 1 then Initial(initialCapital)
    else Step(Replay(bars, strategy, predict, initialCapital, n - 1), bars[n - 1], bars[n - 2], strategy, predict)
  }

  lemma ReplayNext(bars: seq<DataPoint>, strategy: Strategy, predict: seq<real> -> Prediction,
                   initialCapital: real, i: nat)
    requires 1 <= i < |bars| && ClosesNonZero(bars)
    ensures Replay(bars, strategy, predict, initialCapital, i + 1) ==
      Step(Replay(bars, strategy, predict, initialCapital, i), bars[i], bars[i - 1], strategy, predict)
  {
  }

  /** The forced close after the loop: an open position is sold at the last
      close; the drawdown is not updated. */
  function Finish(s: SimState, bars: seq<DataPoint>): (r: SimState)
    requires |bars| > 0 && ClosesNonZero(bars)
    ensures r.maxDrawdown == s.maxDrawdown && r.maxCapital == s.maxCapital
    ensures !s.position.isOpen ==> r == s
  {
    if s.position.isOpen then
      var trade := ProcessSignal(Sell, bars[|bars| - 1], s.position, s.capital).value;
      s.(trades := s.trades + [trade], capital := s.capital + trade.pnl)
    else s
  }

  // ------------------------------------------------ metrics

  /** The SELL trades, in order. */
  function Completed(trades: seq<Trade>): (r: seq<Trade>)
    ensures |r| <= |trades|
    ensures forall k :: 0 <= k < |r| ==> r[k].side == Sell
  {
    if trades == [] then []
    else
      var t := trades[|trades| - 1];
      Completed(trades[..|trades| - 1]) + (if t.side == Sell then [t] else [])
  }

  function CountWinning(ts: seq<Trade>): (c: nat)
    ensures c <= |ts|
  {
    if ts == [] then 0 else CountWinning(ts[..|ts| - 1]) + (if ts[|ts| - 1].pnl > 0.0 then 1 else 0)
  }

  function CountLosing(ts: seq<Trade>): (c: nat)
    ensures c <= |ts|
  {
    if ts == [] then 0 else CountLosing(ts[..|ts| - 1]) + (if ts[|ts| - 1].pnl < 0.0 then 1 else 0)
  }

  lemma {:induction false} WinningPlusLosing(ts: seq<Trade>)
    ensures CountWinning(ts) + CountLosing(ts) <= |ts|
  {
    if ts != [] {
      WinningPlusLosing(ts[..|ts| - 1]);
    }
  }

  /** Sum of the positive PnLs. */
  function GrossProfit(ts: seq<Trade>): (g: real)
    ensures g >= 0.0
    ensures g > 0.0 ==> CountWinning(ts) > 0
  {
    if ts == [] then 0.0
    else GrossProfit(ts[..|ts| - 1]) + (if ts[|ts| - 1].pnl > 0.0 then ts[|ts| - 1].pnl else 0.0)
  }

  /** Absolute value of the sum of the negative PnLs. */
  function GrossLoss(ts: seq<Trade>): (g: real)
    ensures g >= 0.0
    ensures g > 0.0 ==> CountLosing(ts) > 0
  {
    if ts == [] then 0.0
    else GrossLoss(ts[..|ts| - 1]) + (if ts[|ts| - 1].pnl < 0.0 then -ts[|ts| - 1].pnl else 0.0)
  }

  /** Each trade's PnL as a fraction of the initial capital. */
  function Returns(ts: seq<Trade>, initialCapital: real): (r: seq<real>)
    requires initialCapital != 0.0
    ensures |r| == |ts|
  {
    seq(|ts|, i requires 0 <= i < |ts| => ts[i].pnl / initialCapital)
  }

  function SquaredDeviations(rs: seq<real>, mean: real): (r: seq<real>)
    ensures |r| == |rs|
  {
    seq(|rs|, i requires 0 <= i < |rs| => (rs[i] - mean) * (rs[i] - mean))
  }

  lemma QuotientFacts(a: real, b: real)
    requires a >= 0.0 && b > 0.0
    ensures a / b >= 0.0 && (a / b) * b == a
  {
  }

  /** `grossLoss > 0 ? grossProfit / grossLoss : grossProfit > 0 ? 10 : 1`. */
  function ProfitFactor(grossProfit: real, grossLoss: real): (r: real)
    requires grossProfit >= 0.0 && grossLoss >= 0.0
    ensures r >= 0.0
    ensures grossLoss > 0.0 ==> r * grossLoss == grossProfit
    ensures grossLoss == 0.0 ==> r == (if grossProfit > 0.0 then 10.0 else 1.0)
  {
    if grossLoss > 0.0 then
      QuotientFacts(grossProfit, grossLoss);
      grossProfit / grossLoss
    else if grossProfit > 0.0 then 10.0
    else 1.0
  }

  /** The simplified Sharpe ratio: mean return over its standard deviation,
      with a 0 mean and a deviation of 1 standing in for NaN and 0. */
  function SharpeRatio(ratios: seq<real>, sqrt: real -> real): real
  {
    var avgReturn := Or(Div(Sum(ratios), |ratios| as real), 0.0);
    var variance := Div(Sum(SquaredDeviations(ratios, avgReturn)), |ratios| as real);
    var stdDev := if variance.NaN? then 1.0 else Or(Finite(sqrt(variance.value)), 1.0);
    avgReturn / stdDev
  }

  lemma RatioInUnit(a: nat, b: nat)
    requires a <= b
    ensures b > 0 ==> 0.0 <= a as real / b as real <= 1.0
  {
    if b > 0 {
      QuotientBelowOne(a as real, b as real);
    }
  }

  /** `(finalCapital - initialCapital) / initialCapital`. */
  function TotalReturn(initialCapital: real, finalCapital: real): (r: Number)
    ensures r.NaN? <==> initialCapital == 0.0
    ensures r.Finite? ==> r.value * initialCapital == finalCapital - initialCapital
  {
    Div(finalCapital - initialCapital, initialCapital)
  }

  /** The mean of pnl / initialCapital over the completed trades, 0 without
      any; each return is NaN for a zero capital, and so is their mean. */
  function AvgTradeReturn(completed: seq<Trade>, initialCapital: real): (r: Number)
    ensures |completed| == 0 ==> r == Finite(0.0)
    ensures |completed| > 0 ==> (r.NaN? <==> initialCapital == 0.0)
    ensures |completed| > 0 && r.Finite? ==>
      r.value * |completed| as real == Sum(Returns(completed, initialCapital))
  {
    if |completed| == 0 then Finite(0.0)
    else if initialCapital == 0.0 then NaN
    else Finite(Sum(Returns(completed, initialCapital)) / |completed| as real)
  }

  /** The Sharpe ratio of the per-trade returns; for a zero capital the
      fallbacks turn the NaN mean into 0 and the NaN deviation into 1. */
  function TradeSharpe(completed: seq<Trade>, initialCapital: real, sqrt: real -> real): (r: real)
    ensures initialCapital == 0.0 ==> r == 0.0
  {
    if initialCapital == 0.0 then 0.0 else SharpeRatio(Returns(completed, initialCapital), sqrt)
  }

  /** `calculateMetrics`. The source accepts a zero initial capital: then
      the total return and every per-trade return divide by 0 and are NaN
      (0 / 0 for a run, whose numerators are all 0, see `ZeroCapitalRun`);
      NaN returns average to NaN, and in the Sharpe ratio the `|| 0` and
      `|| 1` fallbacks turn them into 0 / 1 = 0. */
  function CalculateMetrics(trades: seq<Trade>, initialCapital: real, finalCapital: real,
                            maxDrawdown: real, sqrt: real -> real): (r: BacktestResults)
    ensures r.totalTrades == |trades| && r.trades == trades && r.maxDrawdown == maxDrawdown
    ensures r.winningTrades + r.losingTrades <= |Completed(trades)|
    ensures r.winningTrades == CountWinning(Completed(trades)) && r.losingTrades == CountLosing(Completed(trades))
    ensures 0.0 <= r.winRate <= 1.0
    ensures |Completed(trades)| == 0 ==> r.winRate == 0.0
    ensures r.totalReturn == TotalReturn(initialCapital, finalCapital)
    ensures r.avgTradeReturn == AvgTradeReturn(Completed(trades), initialCapital)
    ensures r.sharpeRatio == TradeSharpe(Completed(trades), initialCapital, sqrt)
    ensures r.profitFactor == ProfitFactor(GrossProfit(Completed(trades)), GrossLoss(Completed(trades)))
  {
    var completed := Completed(trades);
    var winningTrades := CountWinning(completed);
    var losingTrades := CountLosing(completed);
    WinningPlusLosing(completed);
    var winRate := if |completed| > 0 then winningTrades as real / |completed| as real else 0.0;
    RatioInUnit(winningTrades, |completed|);
    BacktestResults(
      TotalReturn(initialCapital, finalCapital),
      |trades|, winningTrades, losingTrades, winRate, maxDrawdown,
      TradeSharpe(completed, initialCapital, sqrt),
      ProfitFactor(GrossProfit(completed), GrossLoss(completed)),
      AvgTradeReturn(completed, initialCapital), trades)
  }

  // ------------------------------------------------ the run

  /** The trading part of one iteration of `runBacktest`'s loop: a BUY or
      SELL that `processSignal` accepts is logged, its pnl booked, and the
      position opened or closed. */
  method ExecuteSignal(signal: Action, bar: DataPoint, capital: real, position: Position, trades: seq<Trade>,
                       ghost maxCapital: real, ghost maxDrawdown: real)
    returns (capital': real, position': Position, trades': seq<Trade>)
    requires bar.close != 0.0
    ensures SimState(capital', position', trades', maxCapital, maxDrawdown) ==
      Apply(SimState(capital, position, trades, maxCapital, maxDrawdown), signal, bar)
  {
    capital', position', trades' := capital, position, trades;
    if signal != Hold {
      var trade := ProcessSignal(signal, bar, position, capital);
      if trade.Some? {
        trades' := trades + [trade.value];
        capital' := capital + trade.value.pnl;
        if signal == Buy && !position.isOpen {
          position' := Position(true, bar.close, bar.timestamp, trade.value.quantity);
        } else if signal == Sell && position.isOpen {
          position' := Flat;
        }
      }
    }
  }

  /** The drawdown part of one iteration: the peak follows the capital up,
      and the maximum drawdown the relative fall from the peak. */
  method TrackDrawdown(capital: real, maxCapital: real, maxDrawdown: real,
                       ghost position: Position, ghost trades: seq<Trade>)
    returns (maxCapital': real, maxDrawdown': real)
    ensures SimState(capital, position, trades, maxCapital', maxDrawdown') ==
      Track(SimState(capital, position, trades, maxCapital, maxDrawdown))
  {
    maxCapital', maxDrawdown' := maxCapital, maxDrawdown;
    if capital > maxCapital' {
      maxCapital' := capital;
    }
    var currentDrawdown := Div(maxCapital' - capital, maxCapital');
    if currentDrawdown.Finite? && currentDrawdown.value > maxDrawdown' {
      maxDrawdown' := currentDrawdown.value;
    }
  }

  /** The loop of `runBacktest` over bars 1 .. n-1, on its five local
      variables (capital, position, trade log, peak, maximum drawdown). */
  method SimulateBars(bars: seq<DataPoint>, initialCapital: real, strategy: Strategy,
                      predict: seq<real> -> Prediction) returns (s: SimState)
    requires ClosesNonZero(bars)
    ensures s == if |bars| == 0 then Initial(initialCapital) else Replay(bars, strategy, predict, initialCapital, |bars|)
  {
    var trades: seq<Trade> := [];
    var currentCapital := initialCapital;
    var position := Flat;
    var maxCapital := initialCapital;
    var maxDrawdown := 0.0;
    var i := 1;
    while i < |bars|
      invariant 1 <= i <= |bars| || (|bars| == 0 && i == 1)
      invariant SimState(currentCapital, position, trades, maxCapital, maxDrawdown) ==
        if |bars| == 0 then Initial(initialCapital) else Replay(bars, strategy, predict, initialCapital, i)
    {
      var currentData := bars[i];
      var previousData := bars[i - 1];
      var signal := GenerateSignal(strategy, currentData, previousData, predict);
      ghost var before := SimState(currentCapital, position, trades, maxCapital, maxDrawdown);
      currentCapital, position, trades :=
        ExecuteSignal(signal, currentData, currentCapital, position, trades, maxCapital, maxDrawdown);
      maxCapital, maxDrawdown := TrackDrawdown(currentCapital, maxCapital, maxDrawdown, position, trades);
      ReplayNext(bars, strategy, predict, initialCapital, i);
      assert SimState(currentCapital, position, trades, maxCapital, maxDrawdown) ==
        Step(before, currentData, previousData, strategy, predict);
      i := i + 1;
    }
    s := SimState(currentCapital, position, trades, maxCapital, maxDrawdown);
  }

  /** `runBacktest`: the loop, the forced close of an open position at the
      last close, and the metrics of the resulting trade log. */
  method RunBacktest(bars: seq<DataPoint>, initialCapital: real, strategy: Strategy,
                     predict: seq<real> -> Prediction, sqrt: real -> real) returns (r: BacktestResults)
    requires ClosesNonZero(bars)
    ensures |bars| == 0 ==> r == CalculateMetrics([], initialCapital, initialCapital, 0.0, sqrt)
    ensures |bars| > 0 ==>
      var s := Finish(Replay(bars, strategy, predict, initialCapital, |bars|), bars);
      r == CalculateMetrics(s.trades, initialCapital, s.capital, s.maxDrawdown, sqrt)
  {
    var s := SimulateBars(bars, initialCapital, strategy, predict);
    var trades, currentCapital := s.trades, s.capital;
    if s.position.isOpen {
      trades, currentCapital := ForceClose(s, bars);
    }
    r := CalculateMetrics(trades, initialCapital, currentCapital, s.maxDrawdown, sqrt);
  }

  /** The forced close after the loop of `runBacktest`: the open position is
      sold at the last close, as `Finish` states. */
  method ForceClose(s: SimState, bars: seq<DataPoint>) returns (trades: seq<Trade>, capital: real)
    requires |bars| > 0 && ClosesNonZero(bars) && s.position.isOpen
    ensures trades == Finish(s, bars).trades && capital == Finish(s, bars).capital
  {
    trades, capital := s.trades, s.capital;
    var finalData := bars[|bars| - 1];
    var closeTrade := ProcessSignal(Sell, finalData, s.position, capital);
    if closeTrade.Some? {
      trades := trades + [closeTrade.value];
      capital := capital + closeTrade.value.pnl;
    }
  }

  // ------------------------------------------------ invariants of the run

  /** Trades alternate BUY, SELL, BUY, ... */
  ghost predicate Alternating(ts: seq<Trade>)
  {
    forall k :: 0 <= k < |ts| ==> ts[k].side == (if k % 2 == 0 then Buy else Sell)
  }

  /** Every SELL closes the BUY just before it: the same quantity, at a PnL of
      (exit - entry) * quantity; every BUY has PnL 0. */
  ghost predicate RoundTrips(ts: seq<Trade>)
  {
    (forall k :: 0 <= k < |ts| && k % 2 == 0 ==> ts[k].pnl == 0.0 && ts[k].reason == OpenLong) &&
    (forall k :: 0 < k < |ts| && k % 2 == 1 ==>
       ts[k].quantity == ts[k - 1].quantity && ts[k].reason == CloseLong(ts[k - 1].price) &&
       ts[k].pnl == ClosePnl(ts[k - 1].price, ts[k].price, ts[k - 1].quantity))
  }

  /** Sum of the PnLs of a trade log. */
  function PnlSum(ts: seq<Trade>): real
  {
    if ts == [] then 0.0 else PnlSum(ts[..|ts| - 1]) + ts[|ts| - 1].pnl
  }

  lemma PnlSumAppend(ts: seq<Trade>, t: Trade)
    ensures PnlSum(ts + [t]) == PnlSum(ts) + t.pnl
  {
    assert (ts + [t])[..|ts|] == ts;
  }

  /** The accounting a run keeps: the log alternates and pairs up, a position
      is open exactly after an odd number of trades and matches the last BUY,
      and the capital is the initial capital plus the PnL so far. */
  ghost predicate Ledger(s: SimState, initialCapital: real)
  {
    Alternating(s.trades) && RoundTrips(s.trades) &&
    (s.position.isOpen <==> |s.trades| % 2 == 1) &&
    (!s.position.isOpen ==> s.position == Flat) &&
    (s.position.isOpen ==>
       var t := s.trades[|s.trades| - 1];
       s.position.entryPrice == t.price && s.position.quantity == t.quantity && s.position.entryTime == t.time) &&
    s.capital == initialCapital + PnlSum(s.trades)
  }

  /** The capital stays positive, and an open position cost at most 95% of it. */
  ghost predicate Solvent(s: SimState)
  {
    s.capital > 0.0 &&
    (s.position.isOpen ==>
       s.position.entryPrice > 0.0 && s.position.quantity >= 0 &&
       s.position.quantity as real * s.position.entryPrice <= Exposure * s.capital)
  }

  /** The peak is at least the capital and the initial capital, and the
      maximum drawdown lies in [0, 1). */
  ghost predicate Peak(s: SimState, initialCapital: real)
  {
    s.maxCapital >= s.capital && s.maxCapital >= initialCapital && 0.0 <= s.maxDrawdown < 1.0
  }

  ghost predicate ClosesPositive(bars: seq<DataPoint>)
  {
    forall i :: 0 <= i < |bars| ==> bars[i].close > 0.0
  }

  lemma SubMul(a: real, b: real, c: real)
    ensures (a - b) * c == a * c - b * c
  {
  }

  lemma MulLeRight(a: real, b: real, c: real)
    requires a <= b && c >= 0.0
    ensures a * c <= b * c
  {
    NonNegativeProduct(b - a, c);
  }

  /** A new position costs at most 95% of the capital. */
  lemma QuantityBound(capital: real, price: real)
    requires capital > 0.0 && price > 0.0
    ensures var q := ((capital * Exposure) / price).Floor;
      q >= 0 && q as real * price <= Exposure * capital
  {
    var x := (capital * Exposure) / price;
    QuotientFacts(capital * Exposure, price);
    var q := x.Floor;
    assert q as real <= x;
    MulLeRight(q as real, x, price);
  }

  /** Closing a position that cost at most 95% of the capital at a positive
      price leaves at least 5% of it. */
  lemma CloseStaysPositive(capital: real, entry: real, price: real, q: int)
    requires capital > 0.0 && price > 0.0 && q >= 0 && q as real * entry <= Exposure * capital
    ensures capital + (price - entry) * q as real > 0.0
  {
    NonNegativeProduct(price, q as real);
    SubMul(price, entry, q as real);
  }

  lemma DrawdownBounds(peak: real, capital: real)
    requires peak >= capital > 0.0
    ensures 0.0 <= (peak - capital) / peak < 1.0
  {
    var d := (peak - capital) / peak;
    QuotientFacts(peak - capital, peak);
    if d >= 1.0 {
      MulLeRight(1.0, d, peak);
    }
  }

  lemma AppendAlternating(ts: seq<Trade>, t: Trade)
    requires Alternating(ts) && t.side == (if |ts| % 2 == 0 then Buy else Sell)
    ensures Alternating(ts + [t])
  {
    var r := ts + [t];
    forall k | 0 <= k < |r| ensures r[k].side == (if k % 2 == 0 then Buy else Sell) {
      if k < |ts| { assert r[k] == ts[k]; }
    }
  }

  /** The pairing condition a trade appended after the log `ts` must meet. */
  ghost predicate Pairs(ts: seq<Trade>, t: Trade)
  {
    if |ts| % 2 == 0 then t.pnl == 0.0 && t.reason == OpenLong
    else
      var last := ts[|ts| - 1];
      t.quantity == last.quantity && t.reason == CloseLong(last.price) &&
      t.pnl == ClosePnl(last.price, t.price, last.quantity)
  }

  lemma AppendRoundTrips(ts: seq<Trade>, t: Trade)
    requires RoundTrips(ts) && Pairs(ts, t)
    ensures RoundTrips(ts + [t])
  {
    var r := ts + [t];
    assert forall k :: 0 <= k < |ts| ==> r[k] == ts[k];
    forall k | 0 < k < |r| && k % 2 == 1
      ensures r[k].quantity == r[k - 1].quantity && r[k].reason == CloseLong(r[k - 1].price) &&
              r[k].pnl == ClosePnl(r[k - 1].price, r[k].price, r[k - 1].quantity)
    {
    }
  }

  /** Opening a position extends the ledger by one BUY. */
  lemma OpenKeepsLedger(s: SimState, bar: DataPoint, initialCapital: real)
    requires Ledger(s, initialCapital) && bar.close != 0.0 && !s.position.isOpen
    ensures Ledger(Apply(s, Buy, bar), initialCapital)
  {
    var trade := ProcessSignal(Buy, bar, s.position, s.capital).value;
    var position := Position(true, bar.close, bar.timestamp, trade.quantity);
    assert Apply(s, Buy, bar) == s.(trades := s.trades + [trade], capital := s.capital + trade.pnl, position := position);
    AppendKeepsLedger(s, trade, position, initialCapital);
  }

  /** Closing a position extends the ledger by the SELL that pairs with the
      last BUY. */
  lemma CloseKeepsLedger(s: SimState, bar: DataPoint, initialCapital: real)
    requires Ledger(s, initialCapital) && bar.close != 0.0 && s.position.isOpen
    ensures Ledger(Apply(s, Sell, bar), initialCapital)
  {
    var trade := ProcessSignal(Sell, bar, s.position, s.capital).value;
    var last := s.trades[|s.trades| - 1];
    assert Pairs(s.trades, trade);
    assert Apply(s, Sell, bar) == s.(trades := s.trades + [trade], capital := s.capital + trade.pnl, position := Flat);
    AppendKeepsLedger(s, trade, Flat, initialCapital);
  }

  /** Appending a trade that alternates and pairs, with the matching
      position, keeps the ledger. */
  lemma AppendKeepsLedger(s: SimState, trade: Trade, position: Position, initialCapital: real)
    requires Ledger(s, initialCapital)
    requires trade.side == (if |s.trades| % 2 == 0 then Buy else Sell) && Pairs(s.trades, trade)
    requires position.isOpen <==> |s.trades| % 2 == 0
    requires !position.isOpen ==> position == Flat
    requires position.isOpen ==>
      position.entryPrice == trade.price && position.quantity == trade.quantity && position.entryTime == trade.time
    ensures Ledger(s.(trades := s.trades + [trade], capital := s.capital + trade.pnl, position := position), initialCapital)
  {
    PnlSumAppend(s.trades, trade);
    AppendAlternating(s.trades, trade);
    AppendRoundTrips(s.trades, trade);
    var ts := s.trades + [trade];
    assert ts[|ts| - 1] == trade;
  }

  lemma ApplyKeepsLedger(s: SimState, signal: Action, bar: DataPoint, initialCapital: real)
    requires Ledger(s, initialCapital) && bar.close != 0.0
    ensures Ledger(Apply(s, signal, bar), initialCapital)
  {
    if signal == Buy && !s.position.isOpen {
      OpenKeepsLedger(s, bar, initialCapital);
    } else if signal == Sell && s.position.isOpen {
      CloseKeepsLedger(s, bar, initialCapital);
    }
  }

  lemma ApplyKeepsSolvent(s: SimState, signal: Action, bar: DataPoint, initialCapital: real)
    requires Ledger(s, initialCapital) && Solvent(s) && bar.close > 0.0
    ensures Solvent(Apply(s, signal, bar))
  {
    if signal == Buy && !s.position.isOpen {
      QuantityBound(s.capital, bar.close);
    } else if signal == Sell && s.position.isOpen {
      CloseStaysPositive(s.capital, s.position.entryPrice, bar.close, s.position.quantity);
    }
  }

  lemma TrackKeepsPeak(s: SimState, initialCapital: real)
    requires s.capital > 0.0 && s.maxCapital >= initialCapital && 0.0 <= s.maxDrawdown < 1.0
    ensures Peak(Track(s), initialCapital)
  {
    var peak := if s.capital > s.maxCapital then s.capital else s.maxCapital;
    DrawdownBounds(peak, s.capital);
  }

  /** The drawdown step leaves the ledger and solvency as they are. */
  lemma TrackKeepsAccounts(s: SimState, initialCapital: real)
    ensures Ledger(Track(s), initialCapital) == Ledger(s, initialCapital)
    ensures Solvent(Track(s)) == Solvent(s)
  {
    var t := Track(s);
    assert t.capital == s.capital && t.position == s.position && t.trades == s.trades;
  }

  /** After every bar the accounting, solvency and peak invariants hold. */
  lemma {:induction false} ReplayInvariant(bars: seq<DataPoint>, strategy: Strategy,
                                         predict: seq<real> -> Prediction, initialCapital: real, n: nat)
    requires n <= |bars| && ClosesPositive(bars) && initialCapital > 0.0
    ensures var s := Replay(bars, strategy, predict, initialCapital, n);
      Ledger(s, initialCapital) && Solvent(s) && Peak(s, initialCapital)
  {
    if n > 1 {
      ReplayInvariant(bars, strategy, predict, initialCapital, n - 1);
      var s := Replay(bars, strategy, predict, initialCapital, n - 1);
      var signal := GenerateSignal(strategy, bars[n - 1], bars[n - 2], predict);
      var a := Apply(s, signal, bars[n - 1]);
      assert Replay(bars, strategy, predict, initialCapital, n) == Track(a);
      ApplyKeepsLedger(s, signal, bars[n - 1], initialCapital);
      ApplyKeepsSolvent(s, signal, bars[n - 1], initialCapital);
      TrackKeepsPeak(a, initialCapital);
      TrackKeepsAccounts(a, initialCapital);
    }
  }

  /** The maximum drawdown and the peak never decrease from bar to bar. */
  lemma {:induction false} DrawdownMonotone(bars: seq<DataPoint>, strategy: Strategy,
                                          predict: seq<real> -> Prediction, initialCapital: real, m: nat, n: nat)
    requires m <= n <= |bars| && ClosesNonZero(bars)
    ensures Replay(bars, strategy, predict, initialCapital, m).maxDrawdown <=
            Replay(bars, strategy, predict, initialCapital, n).maxDrawdown
    ensures Replay(bars, strategy, predict, initialCapital, m).maxCapital <=
            Replay(bars, strategy, predict, initialCapital, n).maxCapital
  {
    if m < n && n > 1 {
      DrawdownMonotone(bars, strategy, predict, initialCapital, m, n - 1);
    }
  }

  /** Alternating trades of even length hold as many SELLs as BUYs. */
  lemma {:induction false} AlternatingSells(ts: seq<Trade>)
    requires Alternating(ts)
    ensures |Completed(ts)| == |ts| / 2
  {
    if ts != [] {
      var p := ts[..|ts| - 1];
      assert forall k :: 0 <= k < |p| ==> p[k] == ts[k];
      AlternatingSells(p);
    }
  }

  /** When every BUY has PnL 0, the total PnL is the gross profit minus the
      gross loss of the SELL trades. */
  lemma {:induction false} PnlSumIsNet(ts: seq<Trade>)
    requires forall k :: 0 <= k < |ts| && ts[k].side == Buy ==> ts[k].pnl == 0.0
    requires forall k :: 0 <= k < |ts| ==> ts[k].side != Hold
    ensures PnlSum(ts) == GrossProfit(Completed(ts)) - GrossLoss(Completed(ts))
  {
    if ts != [] {
      var p := ts[..|ts| - 1];
      var t := ts[|ts| - 1];
      assert forall k :: 0 <= k < |p| ==> p[k] == ts[k];
      PnlSumIsNet(p);
      assert Completed(ts) == Completed(p) + (if t.side == Sell then [t] else []);
      assert PnlSum(ts) == PnlSum(p) + t.pnl;
      if t.side == Sell {
        var c := Completed(p) + [t];
        assert c[..|c| - 1] == Completed(p) && c[|c| - 1] == t;
        assert GrossProfit(c) == GrossProfit(Completed(p)) + (if t.pnl > 0.0 then t.pnl else 0.0);
        assert GrossLoss(c) == GrossLoss(Completed(p)) + (if t.pnl < 0.0 then -t.pnl else 0.0);
      } else {
        assert Completed(p) + [] == Completed(p);
        assert t.pnl == 0.0;
      }
    }
  }

  /** The forced close leaves a flat, paired-up log whose PnL is the gain on
      the initial capital, with the capital still positive. */
  lemma FinishKeepsLedger(s: SimState, bars: seq<DataPoint>, initialCapital: real)
    requires |bars| > 0 && ClosesPositive(bars)
    requires Ledger(s, initialCapital) && Solvent(s)
    ensures var r := Finish(s, bars);
      Ledger(r.(position := Flat), initialCapital) && r.capital > 0.0
  {
    if s.position.isOpen {
      var bar := bars[|bars| - 1];
      assert Finish(s, bars).(position := Flat) == Apply(s, Sell, bar);
      CloseKeepsLedger(s, bar, initialCapital);
      CloseStaysPositive(s.capital, s.position.entryPrice, bar.close, s.position.quantity);
    }
  }

  /** When `runBacktest` returns, the run is flat: the log alternates,
      pairs up and has even length (as many SELLs as BUYs), the final capital
      is the initial capital plus the PnL of the SELLs, and it is positive. */
  lemma RunEndsFlat(bars: seq<DataPoint>, strategy: Strategy, predict: seq<real> -> Prediction,
                    initialCapital: real)
    requires |bars| > 0 && ClosesPositive(bars) && initialCapital > 0.0
    ensures var s := Finish(Replay(bars, strategy, predict, initialCapital, |bars|), bars);
      Alternating(s.trades) && RoundTrips(s.trades) && |s.trades| % 2 == 0 &&
      2 * |Completed(s.trades)| == |s.trades| &&
      s.capital == initialCapital + GrossProfit(Completed(s.trades)) - GrossLoss(Completed(s.trades)) &&
      s.capital > 0.0
  {
    var s0 := Replay(bars, strategy, predict, initialCapital, |bars|);
    ReplayInvariant(bars, strategy, predict, initialCapital, |bars|);
    FinishKeepsLedger(s0, bars, initialCapital);
    var s := Finish(s0, bars);
    var ts := s.trades;
    assert Ledger(s.(position := Flat), initialCapital);
    assert Alternating(ts) && RoundTrips(ts) && |ts| % 2 == 0 && s.capital == initialCapital + PnlSum(ts);
    AlternatingSells(ts);
    PnlSumIsNet(ts);
  }

  /** The state after bar n-1 depends only on bars 0 .. n-1. */
  lemma {:induction false} ReplayIsCausal(bars: seq<DataPoint>, strategy: Strategy,
                                        predict: seq<real> -> Prediction, initialCapital: real, n: nat)
    requires n <= |bars| && ClosesNonZero(bars)
    ensures ClosesNonZero(bars[..n])
    ensures Replay(bars, strategy, predict, initialCapital, n) == Replay(bars[..n], strategy, predict, initialCapital, n)
    decreases n
  {
    assert forall i :: 0 <= i < n ==> bars[..n][i] == bars[i];
    if n > 1 {
      ReplayIsCausal(bars, strategy, predict, initialCapital, n - 1);
      ReplayIsCausal(bars[..n], strategy, predict, initialCapital, n - 1);
      assert bars[..n][..n - 1] == bars[..n - 1];
    }
  }

  /** With a silent predictor (the untrained fallback, or a trained model
      under the laws of exp) the ML strategy never trades. */
  lemma {:induction false} SilentMlNeverTrades(bars: seq<DataPoint>, predict: seq<real> -> Prediction,
                                             initialCapital: real, n: nat)
    requires n <= |bars| && ClosesNonZero(bars) && Silent(predict)
    ensures var s := Replay(bars, MlStrategy, predict, initialCapital, n);
      s.trades == [] && s.position == Flat && s.capital == initialCapital
  {
    if n > 1 {
      SilentMlNeverTrades(bars, predict, initialCapital, n - 1);
      SilentPredictorSignals(predict, bars[n - 1], bars[n - 2]);
    }
  }

  /** With a silent predictor the hybrid strategy runs exactly as the
      technical one. */
  lemma {:induction false} SilentHybridIsTechnical(bars: seq<DataPoint>, predict: seq<real> -> Prediction,
                                                 initialCapital: real, n: nat)
    requires n <= |bars| && ClosesNonZero(bars) && Silent(predict)
    ensures Replay(bars, Hybrid, predict, initialCapital, n) == Replay(bars, Technical, predict, initialCapital, n)
  {
    if n > 1 {
      SilentHybridIsTechnical(bars, predict, initialCapital, n - 1);
      SilentPredictorSignals(predict, bars[n - 1], bars[n - 2]);
    }
  }

  /** A round trip on 10000 of capital: 95 units bought at 100 and sold at 110
      make a PnL of 950. */
  lemma RoundTripExample(bar1: DataPoint, bar2: DataPoint)
    requires bar1.close == 100.0 && bar2.close == 110.0
    ensures var open := ProcessSignal(Buy, bar1, Flat, 10000.0).value;
      open.quantity == 95 &&
      ProcessSignal(Sell, bar2, Position(true, 100.0, bar1.timestamp, 95), 10000.0).value.pnl == 950.0
  {
    assert (10000.0 * Exposure) / 100.0 == 95.0;
  }

  /** A capital below price / 0.95 opens a position of zero units: a BUY is
      logged and the run is long, yet nothing was bought. */
  lemma ZeroQuantityPosition(bar: DataPoint)
    requires bar.close == 100.0
    ensures var s := Apply(Initial(50.0), Buy, bar);
      s.position.isOpen && s.position.quantity == 0 && |s.trades| == 1
  {
    assert (50.0 * Exposure) / 100.0 == 0.475;
  }

  // ------------------------------------------------ a run without capital

  /** No capital, no peak, no drawdown, nothing held and no PnL logged. */
  ghost predicate Penniless(s: SimState)
  {
    s.capital == 0.0 && s.maxCapital == 0.0 && s.maxDrawdown == 0.0 && s.position.quantity == 0 &&
    forall k :: 0 <= k < |s.trades| ==> s.trades[k].pnl == 0.0
  }

  /** From zero capital a BUY buys floor(0.95 * 0 / price) = 0 units, so its
      SELL books 0, and the drawdown 0 / 0 is NaN and never recorded. */
  lemma PennilessStep(s: SimState, cur: DataPoint, prev: DataPoint, strategy: Strategy,
                      predict: seq<real> -> Prediction)
    requires cur.close != 0.0 && Penniless(s)
    ensures Penniless(Step(s, cur, prev, strategy, predict))
  {
    assert (0.0 * Exposure) / cur.close == 0.0;
    var a := Apply(s, GenerateSignal(strategy, cur, prev, predict), cur);
    assert a.capital == 0.0 && a.position.quantity == 0;
    assert forall k :: 0 <= k < |a.trades| ==> a.trades[k].pnl == 0.0;
  }

  lemma {:induction false} PennilessReplay(bars: seq<DataPoint>, strategy: Strategy,
                                           predict: seq<real> -> Prediction, n: nat)
    requires n <= |bars| && ClosesNonZero(bars)
    ensures Penniless(Replay(bars, strategy, predict, 0.0, n))
  {
    if n > 1 {
      PennilessReplay(bars, strategy, predict, n - 1);
      PennilessStep(Replay(bars, strategy, predict, 0.0, n - 1), bars[n - 1], bars[n - 2], strategy, predict);
    }
  }

  lemma {:induction false} ZeroPnlCounts(ts: seq<Trade>)
    requires forall k :: 0 <= k < |ts| ==> ts[k].pnl == 0.0
    ensures CountWinning(Completed(ts)) == 0 && CountLosing(Completed(ts)) == 0
    ensures forall k :: 0 <= k < |Completed(ts)| ==> Completed(ts)[k].pnl == 0.0
  {
    if ts != [] {
      var init := ts[..|ts| - 1];
      assert forall k :: 0 <= k < |init| ==> init[k] == ts[k];
      ZeroPnlCounts(init);
      var c := Completed(ts);
      if ts[|ts| - 1].side == Sell {
        assert c[..|c| - 1] == Completed(init);
      } else {
        assert c == Completed(init);
      }
    }
  }

  /** A backtest from zero capital, which the source accepts, ends with zero
      capital and no PnL: its total return is the NaN of 0 / 0, its Sharpe
      ratio 0, and it has neither winning nor losing trades. */
  lemma ZeroCapitalRun(bars: seq<DataPoint>, strategy: Strategy, predict: seq<real> -> Prediction,
                       sqrt: real -> real)
    requires |bars| > 0 && ClosesNonZero(bars)
    ensures var s := Finish(Replay(bars, strategy, predict, 0.0, |bars|), bars);
      var r := CalculateMetrics(s.trades, 0.0, s.capital, s.maxDrawdown, sqrt);
      s.capital == 0.0 && (forall k :: 0 <= k < |s.trades| ==> s.trades[k].pnl == 0.0) &&
      r.totalReturn.NaN? && r.sharpeRatio == 0.0 && r.maxDrawdown == 0.0 &&
      r.winningTrades == 0 && r.losingTrades == 0 && r.profitFactor == 1.0
  {
    var s0 := Replay(bars, strategy, predict, 0.0, |bars|);
    PennilessReplay(bars, strategy, predict, |bars|);
    var s := Finish(s0, bars);
    assert s.capital == 0.0 && forall k :: 0 <= k < |s.trades| ==> s.trades[k].pnl == 0.0;
    ZeroPnlCounts(s.trades);
  }
}

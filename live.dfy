/** The live Binance feed hook (`useBinanceData`, kept twice in the source
    as a `.ts` and a `.tsx` file): the per-prefix SMA series of the last
    klines, the RSI and the band levels of the latest bar, the level-based
    signal rules with their confidence formulas, and the capped history of
    non-HOLD signals. Both files are modelled by the one class below; a
    `Twin` flag selects the single place where they behave differently. */
module LiveSignals {
  import opened Common
  import opened Indicators

  /** Which of the two copies of the hook. */
  datatype Twin = TsHook | TsxHook

  /** A point of the live price series (its display time is left out). */
  datatype PriceData = PriceData(price: real, sma20: real, sma50: real, volume: real)

  /** Why a signal was raised. */
  datatype Reason = Analysing | Oversold | Overbought | Uptrend | Downtrend

  /** A signal; `id` and `timestamp` both come from the clock. */
  datatype Signal = Signal(id: int, kind: Action, price: real, confidence: real, timestamp: int, reason: Reason)

  datatype Bands = Bands(upper: real, middle: real, lower: real, current: real)

  datatype LiveIndicators = LiveIndicators(rsi: real, macd: Macd, bollinger: Bands, volume: real, avgVolume: real)

  /** The hook's five pieces of state. */
  datatype LiveState = LiveState(priceData: seq<PriceData>, currentPrice: real, signals: seq<Signal>,
                                 currentSignal: Option<Signal>, indicators: LiveIndicators)

  const SignalHistoryCapacity: nat := 10

  const InitialIndicators := LiveIndicators(50.0, Macd(0.0, 0.0, 0.0), Bands(0.0, 0.0, 0.0, 0.0), 0.0, 0.0)

  const InitialState := LiveState([], 0.0, [], None, InitialIndicators)

  // ------------------------------------------------ the price series

  /** The price series of a batch of klines: each point's SMA20 and SMA50
      come from the closes up to and including it. */
  function ProcessKlines(data: seq<Kline>): (r: seq<PriceData>)
    ensures |r| == |data|
    ensures forall i :: 0 <= i < |data| ==>
      r[i].price == data[i].close && r[i].volume == data[i].volume &&
      r[i].sma20 == Sma(Closes(data[..i + 1]), 20) && r[i].sma50 == Sma(Closes(data[..i + 1]), 50)
  {
    seq(|data|, i requires 0 <= i < |data| =>
      var prices := Closes(data[..i + 1]);
      PriceData(data[i].close, Sma(prices, 20), Sma(prices, 50), data[i].volume))
  }

  /** A point of the series depends only on the klines up to it. */
  lemma SeriesIsCausal(a: seq<Kline>, b: seq<Kline>, i: nat)
    requires i < |a| && i < |b| && a[..i + 1] == b[..i + 1]
    ensures ProcessKlines(a)[i] == ProcessKlines(b)[i]
  {
    assert a[i] == a[..i + 1][i] == b[i];
  }

  /** Before the 20th (50th) kline there are too few closes for the average,
      so the point's SMA20 (SMA50) is its own close. */
  lemma EarlySmaIsPrice(data: seq<Kline>, i: nat)
    requires i < |data|
    ensures i < 19 ==> ProcessKlines(data)[i].sma20 == data[i].close
    ensures i < 49 ==> ProcessKlines(data)[i].sma50 == data[i].close
  {
    var prices := Closes(data[..i + 1]);
    assert prices[|prices| - 1] == data[i].close;
  }

  function Prices(ps: seq<PriceData>): (r: seq<real>)
    ensures |r| == |ps| && forall i :: 0 <= i < |ps| ==> r[i] == ps[i].price
  {
    seq(|ps|, i requires 0 <= i < |ps| => ps[i].price)
  }

  function Volumes(ps: seq<PriceData>): (r: seq<real>)
    ensures |r| == |ps| && forall i :: 0 <= i < |ps| ==> r[i] == ps[i].volume
  {
    seq(|ps|, i requires 0 <= i < |ps| => ps[i].volume)
  }

  /** The band levels of the latest point: 2% either side of its SMA20.
      They are ordered lower <= middle <= upper exactly when the SMA20 is not
      negative. */
  function BandsOf(latest: PriceData): (b: Bands)
    ensures b.middle == latest.sma20 && b.current == latest.price
    ensures latest.sma20 >= 0.0 <==> b.lower <= b.middle <= b.upper
    ensures latest.sma20 > 0.0 ==> b.lower < b.middle < b.upper && b.upper - b.middle == b.middle - b.lower
  {
    Bands(latest.sma20 * 1.02, latest.sma20, latest.sma20 * 0.98, latest.price)
  }

  // ------------------------------------------------ the signal rules

  /** The outcome of the signal rules: an action, a confidence and a reason. */
  datatype Verdict = Verdict(kind: Action, confidence: real, reason: Reason)

  /** `Math.min(90, x)`. */
  function Cap90(x: real): (r: real)
    ensures r <= 90.0 && (r == x || r == 90.0) && (x <= 90.0 ==> r == x)
  {
    if x < 90.0 then x else 90.0
  }

  /** The rule list of `generateTradingSignal`, in priority order. */
  function SignalRules(latest: PriceData, rsi: real): seq<Rule<Verdict>>
  {
    [Rule(rsi < 30.0 && latest.price > latest.sma20, Verdict(Buy, Cap90(60.0 + (30.0 - rsi)), Oversold)),
     Rule(rsi > 70.0 && latest.price < latest.sma20, Verdict(Sell, Cap90(60.0 + (rsi - 70.0)), Overbought)),
     Rule(latest.sma20 > latest.sma50 && latest.price > latest.sma20, Verdict(Buy, 70.0, Uptrend)),
     Rule(latest.sma20 < latest.sma50 && latest.price < latest.sma20, Verdict(Sell, 70.0, Downtrend))]
  }

  /** The verdict of the rules: the first that fires, or HOLD at 50. */
  function Classify(latest: PriceData, rsi: real): Verdict
  {
    FirstMatch(SignalRules(latest, rsi), Verdict(Hold, 50.0, Analysing))
  }

  /** The rules read as the source's `if ... else if` chain. */
  lemma ClassifyCases(latest: PriceData, rsi: real)
    ensures Classify(latest, rsi) ==
      if rsi < 30.0 && latest.price > latest.sma20 then Verdict(Buy, Cap90(60.0 + (30.0 - rsi)), Oversold)
      else if rsi > 70.0 && latest.price < latest.sma20 then Verdict(Sell, Cap90(60.0 + (rsi - 70.0)), Overbought)
      else if latest.sma20 > latest.sma50 && latest.price > latest.sma20 then Verdict(Buy, 70.0, Uptrend)
      else if latest.sma20 < latest.sma50 && latest.price < latest.sma20 then Verdict(Sell, 70.0, Downtrend)
      else Verdict(Hold, 50.0, Analysing)
  {
    var rules := SignalRules(latest, rsi);
    if !rules[0].fires && !rules[1].fires && !rules[2].fires && !rules[3].fires {
      assert forall i :: 0 <= i < |rules| ==> !rules[i].fires;
    }
  }

  /** The confidences: an RSI rule gives a value in (60, 90], a trend rule
      70, and HOLD 50. A BUY always has the price above the SMA20 and a SELL
      below it, so the two never meet. */
  lemma VerdictRanges(latest: PriceData, rsi: real)
    ensures var v := Classify(latest, rsi);
      (v.reason == Oversold || v.reason == Overbought ==> 60.0 < v.confidence <= 90.0) &&
      (v.reason == Uptrend || v.reason == Downtrend ==> v.confidence == 70.0) &&
      (v.kind == Hold <==> v.reason == Analysing) &&
      (v.kind == Hold ==> v.confidence == 50.0) &&
      (v.kind == Buy ==> latest.price > latest.sma20) &&
      (v.kind == Sell ==> latest.price < latest.sma20)
  {
    ClassifyCases(latest, rsi);
  }

  /** A price on its SMA20 never raises a signal. */
  lemma PriceOnSmaHolds(latest: PriceData, rsi: real)
    requires latest.price == latest.sma20
    ensures Classify(latest, rsi).kind == Hold
  {
    VerdictRanges(latest, rsi);
  }

  /** The signal built from a verdict. */
  function SignalOf(latest: PriceData, rsi: real, now: int): (s: Signal)
    ensures s.price == latest.price && s.id == now && s.timestamp == now
  {
    var v := Classify(latest, rsi);
    Signal(now, v.kind, latest.price, v.confidence, now, v.reason)
  }

  /** `setSignals(prev => [s, ...prev.slice(0, 9)])`, for non-HOLD signals only. */
  function UpdateHistory(prev: seq<Signal>, s: Signal): (r: seq<Signal>)
    ensures s.kind == Hold ==> r == prev
    ensures s.kind != Hold ==> |r| == Min(|prev| + 1, SignalHistoryCapacity) && r[0] == s && r[1..] == prev[..|r| - 1]
  {
    if s.kind != Hold then PushCapped(prev, s, SignalHistoryCapacity) else prev
  }

  function NonHold(ss: seq<Signal>): (r: seq<Signal>)
    ensures |r| <= |ss| && forall i :: 0 <= i < |r| ==> r[i].kind != Hold
  {
    if ss == [] then []
    else NonHold(ss[..|ss| - 1]) + (if ss[|ss| - 1].kind != Hold then [ss[|ss| - 1]] else [])
  }

  /** The history after a run of signals. */
  function UpdateAll(prev: seq<Signal>, ss: seq<Signal>): seq<Signal>
  {
    if ss == [] then prev else UpdateHistory(UpdateAll(prev, ss[..|ss| - 1]), ss[|ss| - 1])
  }

  lemma {:induction false} UpdateAllIsPushAll(prev: seq<Signal>, ss: seq<Signal>)
    ensures UpdateAll(prev, ss) == PushAll(prev, NonHold(ss), SignalHistoryCapacity)
  {
    if ss != [] {
      var init, s := ss[..|ss| - 1], ss[|ss| - 1];
      UpdateAllIsPushAll(prev, init);
      var n := NonHold(ss);
      if s.kind != Hold {
        assert n == NonHold(init) + [s];
        assert n[..|n| - 1] == NonHold(init);
      } else {
        assert n == NonHold(init) + [] == NonHold(init);
      }
    }
  }

  /** After a run of signals the history holds the newest ten non-HOLD
      signals, newest first, then what is left of the earlier history. */
  lemma SignalHistoryNewestFirst(prev: seq<Signal>, ss: seq<Signal>)
    requires |prev| <= SignalHistoryCapacity
    ensures UpdateAll(prev, ss) == Take(Reverse(NonHold(ss)) + prev, SignalHistoryCapacity)
  {
    UpdateAllIsPushAll(prev, ss);
    PushAllNewestFirst(prev, NonHold(ss), SignalHistoryCapacity);
  }

  // ------------------------------------------------ one refresh

  /** What the hook keeps true: at most ten signals in the history, none of
      them HOLD, and the MACD indicator is never computed (it stays zero). */
  ghost predicate Consistent(st: LiveState)
  {
    |st.signals| <= SignalHistoryCapacity &&
    (forall i :: 0 <= i < |st.signals| ==> st.signals[i].kind != Hold) &&
    st.indicators.macd == Macd(0.0, 0.0, 0.0)
  }

  /** The state after one fetch of klines. With no klines the `.ts` hook
      keeps its state; the `.tsx` hook empties the price series. */
  function Refresh(twin: Twin, st: LiveState, data: seq<Kline>, now: int): LiveState
  {
    if data == [] then
      if twin == TsHook then st else st.(priceData := [])
    else
      var processed := ProcessKlines(data);
      var latest := processed[|processed| - 1];
      var rsi := Rsi(Prices(processed), RsiPeriod);
      var signal := SignalOf(latest, rsi, now);
      LiveState(processed, latest.price, UpdateHistory(st.signals, signal), Some(signal),
                st.indicators.(rsi := rsi, volume := latest.volume,
                               avgVolume := Sum(Volumes(processed)) / |processed| as real,
                               bollinger := BandsOf(latest)))
  }

  /** The two copies of the hook agree on every non-empty batch, and on an
      empty one differ only in the price series. */
  lemma TwinsAgree(st: LiveState, data: seq<Kline>, now: int)
    ensures data != [] ==> Refresh(TsHook, st, data, now) == Refresh(TsxHook, st, data, now)
    ensures data == [] ==> Refresh(TsxHook, st, data, now) == Refresh(TsHook, st, data, now).(priceData := [])
  {
  }

  /** A refresh keeps the state consistent. */
  lemma RefreshKeepsConsistent(twin: Twin, st: LiveState, data: seq<Kline>, now: int)
    requires Consistent(st)
    ensures Consistent(Refresh(twin, st, data, now))
  {
    if data != [] {
      var r := Refresh(twin, st, data, now);
      if r.currentSignal.value.kind != Hold {
        assert forall i :: 1 <= i < |r.signals| ==> r.signals[i] == st.signals[i - 1];
      }
    }
  }

  /** After a non-empty batch: the current price and the latest point are
      the last kline's, the RSI is in [0, 100], the current signal is the
      verdict on the latest point, and it heads the history unless it is a
      HOLD. */
  lemma RefreshFacts(twin: Twin, st: LiveState, data: seq<Kline>, now: int)
    requires data != []
    ensures var r := Refresh(twin, st, data, now);
      var latest := r.priceData[|r.priceData| - 1];
      |r.priceData| == |data| && r.currentPrice == data[|data| - 1].close && latest.price == r.currentPrice &&
      0.0 <= r.indicators.rsi <= 100.0 &&
      r.currentSignal == Some(SignalOf(latest, r.indicators.rsi, now)) &&
      r.indicators.bollinger.middle == latest.sma20 &&
      (r.currentSignal.value.kind != Hold ==> r.signals[0] == r.currentSignal.value) &&
      (r.currentSignal.value.kind == Hold ==> r.signals == st.signals)
  {
    RsiRange(Prices(ProcessKlines(data)), RsiPeriod);
  }

  /** Sentinels of a short feed: with fewer than 15 klines the RSI is the
      neutral 50, and with fewer than 20 the SMA20 of the latest point is its
      price, so the middle band sits on the current price, no rule can fire
      and the history is left as it was. */
  lemma ShortFeedSentinels(twin: Twin, st: LiveState, data: seq<Kline>, now: int)
    requires 0 < |data| < 20
    ensures var r := Refresh(twin, st, data, now);
      (|data| < RsiPeriod + 1 ==> r.indicators.rsi == 50.0) &&
      r.indicators.bollinger.middle == r.currentPrice &&
      r.currentSignal.value.kind == Hold && r.signals == st.signals
  {
    var processed := ProcessKlines(data);
    RsiCases(Prices(processed), RsiPeriod);
    EarlySmaIsPrice(data, |data| - 1);
    var latest := processed[|processed| - 1];
    PriceOnSmaHolds(latest, Rsi(Prices(processed), RsiPeriod));
  }

  // ------------------------------------------------ the hook

  /** The hook's state, updated in place by its fetch handler. */
  class LiveFeed {
    const twin: Twin
    var priceData: seq<PriceData>
    var currentPrice: real
    var signals: seq<Signal>
    var currentSignal: Option<Signal>
    var indicators: LiveIndicators

    function State(): LiveState
      reads this
    {
      LiveState(priceData, currentPrice, signals, currentSignal, indicators)
    }

    ghost predicate Valid()
      reads this
    {
      Consistent(State())
    }

    constructor (twin: Twin)
      ensures Valid() && this.twin == twin && State() == InitialState
    {
      this.twin := twin;
      priceData, currentPrice, signals, currentSignal := [], 0.0, [], None;
      indicators := InitialIndicators;
    }

    /** `generateTradingSignal`: the rules set the signal's type, confidence
        and reason; the signal becomes current and, unless it is a HOLD,
        heads the history. */
    method GenerateTradingSignal(latest: PriceData, rsi: real, now: int)
      requires Valid()
      modifies this`currentSignal, this`signals
      ensures Valid()
      ensures currentSignal == Some(SignalOf(latest, rsi, now))
      ensures signals == UpdateHistory(old(signals), SignalOf(latest, rsi, now))
    {
      var signalType := Hold;
      var confidence := 50.0;
      var reason := Analysing;
      if rsi < 30.0 && latest.price > latest.sma20 {
        signalType, confidence, reason := Buy, Cap90(60.0 + (30.0 - rsi)), Oversold;
      } else if rsi > 70.0 && latest.price < latest.sma20 {
        signalType, confidence, reason := Sell, Cap90(60.0 + (rsi - 70.0)), Overbought;
      } else if latest.sma20 > latest.sma50 && latest.price > latest.sma20 {
        signalType, confidence, reason := Buy, 70.0, Uptrend;
      } else if latest.sma20 < latest.sma50 && latest.price < latest.sma20 {
        signalType, confidence, reason := Sell, 70.0, Downtrend;
      }
      ClassifyCases(latest, rsi);
      var newSignal := Signal(now, signalType, latest.price, confidence, now, reason);
      currentSignal := Some(newSignal);
      if signalType != Hold {
        signals := [newSignal] + Take(signals, SignalHistoryCapacity - 1);
        assert forall i :: 1 <= i < |signals| ==> signals[i] == old(signals)[i - 1];
      }
    }

    /** The handler of a fetched batch of klines: the price series, the
        current price, the RSI, volume and band indicators of the latest
        point, and a new signal. */
    method FetchKlineData(data: seq<Kline>, now: int)
      requires Valid()
      modifies this
      ensures Valid()
      ensures State() == Refresh(twin, old(State()), data, now)
    {
      if twin == TsHook && |data| == 0 {
        return;
      }
      var processedData := ProcessKlines(data);
      priceData := processedData;
      if |processedData| > 0 {
        var latestData := processedData[|processedData| - 1];
        currentPrice := latestData.price;
        var rsi := ComputeRsi(Prices(processedData), RsiPeriod);
        var avgVolume := Sum(Volumes(processedData)) / |processedData| as real;
        indicators := indicators.(rsi := rsi, volume := latestData.volume, avgVolume := avgVolume,
                                  bollinger := BandsOf(latestData));
        GenerateTradingSignal(latestData, rsi, now);
      }
    }
  }
}

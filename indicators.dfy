/** The indicator engine and the training labeller of the historical data
    service: SMA, RSI, EMA and MACD over a price prefix, the per-bar
    enrichment of klines, and the forward-looking BUY/SELL/HOLD labels. */
module Indicators {
  import opened Common

  /** A kline already converted to numbers (open time, OHLCV). */
  datatype Kline = Kline(openTime: int, open: real, high: real, low: real, close: real, volume: real)

  /** A historical data point: the bar, its indicators built from the closes
      up to and including it, and the optional training label. */
  datatype DataPoint = DataPoint(
    timestamp: int, open: real, high: real, low: real, close: real, volume: real,
    rsi: real, sma20: real, sma50: real, macd: real, signal: real, histogram: real,
    classLabel: Option<Action>, profitability: Option<real>)

  /** The three MACD outputs. */
  datatype Macd = Macd(macd: real, signal: real, histogram: real)

  const RsiPeriod: nat := 14

  // ---------------------------------------------------------------- SMA

  /** Simple moving average of the last `period` prices; with fewer prices
      than the period, the last price (0 for no prices at all). */
  function Sma(prices: seq<real>, period: nat): real
    requires period >= 1
  {
    if |prices| < period then
      // `prices[prices.length - 1] || 0`: the last price, or 0 when there is none
      if |prices| == 0 then 0.0 else prices[|prices| - 1]
    else
      Sum(prices[|prices| - period..]) / period as real
  }

  /** The short-input sentinels of the SMA. */
  lemma SmaShortInput(prices: seq<real>, period: nat)
    requires period >= 1 && |prices| < period
    ensures prices == [] ==> Sma(prices, period) == 0.0
    ensures prices != [] ==> Sma(prices, period) == prices[|prices| - 1]
  {
  }

  /** With enough prices, the SMA is the mean of the last `period` of them
      and lies between their smallest and largest value. */
  lemma SmaWindowMean(prices: seq<real>, period: nat, lo: real, hi: real)
    requires period >= 1 && |prices| >= period
    requires forall i :: |prices| - period <= i < |prices| ==> lo <= prices[i] <= hi
    ensures Sma(prices, period) * period as real == Sum(prices[|prices| - period..])
    ensures lo <= Sma(prices, period) <= hi
  {
    var w := prices[|prices| - period..];
    assert forall i :: 0 <= i < |w| ==> w[i] == prices[|prices| - period + i];
    SumBounds(w, lo, hi);
    var p := period as real;
    assert Sma(prices, period) == Sum(w) / p;
    assert p * lo <= Sum(w) <= p * hi;
  }

  /** Over positive prices every SMA of a non-empty prefix is positive. */
  lemma SmaPositive(prices: seq<real>, period: nat)
    requires period >= 1 && |prices| >= 1
    requires forall i :: 0 <= i < |prices| ==> prices[i] > 0.0
    ensures Sma(prices, period) > 0.0
  {
    if |prices| >= period {
      var w := prices[|prices| - period..];
      assert forall i :: 0 <= i < |w| ==> w[i] == prices[|prices| - period + i];
      SumPositive(w);
    }
  }

  // ---------------------------------------------------------------- RSI

  /** The gain at index i (i >= 1): the positive part of the change. */
  function Gain(prices: seq<real>, i: nat): real
    requires 1 <= i < |prices|
  {
    var change := prices[i] - prices[i - 1];
    if change > 0.0 then change else 0.0
  }

  /** The loss at index i (i >= 1): `losses -= change` for a non-positive change. */
  function Loss(prices: seq<real>, i: nat): real
    requires 1 <= i < |prices|
  {
    var change := prices[i] - prices[i - 1];
    if change > 0.0 then 0.0 else -change
  }

  /** Sum of the gains at indices lo .. hi-1. */
  function Gains(prices: seq<real>, lo: nat, hi: nat): (r: real)
    requires 1 <= lo <= hi <= |prices|
    ensures r >= 0.0
    decreases hi - lo
  {
    if hi == lo then 0.0 else Gains(prices, lo, hi - 1) + Gain(prices, hi - 1)
  }

  /** Sum of the losses at indices lo .. hi-1. */
  function Losses(prices: seq<real>, lo: nat, hi: nat): (r: real)
    requires 1 <= lo <= hi <= |prices|
    ensures r >= 0.0
    decreases hi - lo
  {
    if hi == lo then 0.0 else Losses(prices, lo, hi - 1) + Loss(prices, hi - 1)
  }

  /** Relative strength index over the last `period` changes. */
  function Rsi(prices: seq<real>, period: nat): real
    requires period >= 1
  {
    if |prices| < period + 1 then 50.0
    else
      var avgGain := Gains(prices, |prices| - period, |prices|) / period as real;
      var avgLoss := Losses(prices, |prices| - period, |prices|) / period as real;
      if avgLoss == 0.0 then 100.0
      else 100.0 - 100.0 / (1.0 + avgGain / avgLoss)
  }

  /** The accumulating loop of `calculateRSI`. */
  method ComputeRsi(prices: seq<real>, period: nat) returns (r: real)
    requires period >= 1
    ensures r == Rsi(prices, period)
  {
    if |prices| < period + 1 {
      return 50.0;
    }
    var gains := 0.0;
    var losses := 0.0;
    var i := |prices| - period;
    while i < |prices|
      invariant |prices| - period <= i <= |prices|
      invariant gains == Gains(prices, |prices| - period, i)
      invariant losses == Losses(prices, |prices| - period, i)
    {
      var change := prices[i] - prices[i - 1];
      if change > 0.0 {
        gains := gains + change;
      } else {
        losses := losses - change;
      }
      i := i + 1;
    }
    var avgGain := gains / period as real;
    var avgLoss := losses / period as real;
    if avgLoss == 0.0 {
      return 100.0;
    }
    var rs := avgGain / avgLoss;
    r := 100.0 - 100.0 / (1.0 + rs);
  }

  /** The RSI cases: neutral 50 on short input, 100 when there is no loss,
      and otherwise 100 * gains / (gains + losses), which lies in [0, 100). */
  lemma RsiCases(prices: seq<real>, period: nat)
    requires period >= 1
    ensures |prices| < period + 1 ==> Rsi(prices, period) == 50.0
    ensures |prices| >= period + 1 ==>
      var g := Gains(prices, |prices| - period, |prices|);
      var l := Losses(prices, |prices| - period, |prices|);
      (l == 0.0 ==> Rsi(prices, period) == 100.0) &&
      (l > 0.0 ==> Rsi(prices, period) == 100.0 * g / (g + l) &&
                   0.0 <= Rsi(prices, period) < 100.0)
  {
    if |prices| >= period + 1 {
      var g := Gains(prices, |prices| - period, |prices|);
      var l := Losses(prices, |prices| - period, |prices|);
      AverageRatio(g, l, period as real);
      if l > 0.0 {
        RsiFormula(g, l);
      }
    }
  }

  /** Averaging over the period changes neither whether the losses are zero
      nor the ratio of gains to losses. */
  lemma AverageRatio(g: real, l: real, p: real)
    requires l >= 0.0 && p > 0.0
    ensures l / p == 0.0 <==> l == 0.0
    ensures l > 0.0 ==> (g / p) / (l / p) == g / l
  {
  }

  /** 100 - 100 / (1 + g/l) is 100 g / (g + l), in [0, 100). */
  lemma RsiFormula(g: real, l: real)
    requires g >= 0.0 && l > 0.0
    ensures 100.0 - 100.0 / (1.0 + g / l) == 100.0 * g / (g + l)
    ensures 0.0 <= 100.0 * g / (g + l) < 100.0
  {
    var rs := g / l;
    assert (g + l) / l == g / l + l / l;
    assert l / l == 1.0;
    assert 100.0 / ((g + l) / l) == 100.0 * l / (g + l);
    assert 100.0 * l / (g + l) + 100.0 * g / (g + l) == 100.0;
    assert 100.0 * l / (g + l) > 0.0;
  }

  /** The RSI always lies in [0, 100]. */
  lemma RsiRange(prices: seq<real>, period: nat)
    requires period >= 1
    ensures 0.0 <= Rsi(prices, period) <= 100.0
  {
    RsiCases(prices, period);
  }

  /** A window whose closes never fall has no loss, so its RSI is 100. */
  lemma {:induction false} RsiOfRisingWindow(prices: seq<real>, period: nat)
    requires period >= 1 && |prices| >= period + 1
    requires forall i :: |prices| - period <= i < |prices| ==> prices[i - 1] <= prices[i]
    ensures Rsi(prices, period) == 100.0
  {
    NoLossesWhenRising(prices, |prices| - period, |prices|);
  }

  lemma {:induction false} NoLossesWhenRising(prices: seq<real>, lo: nat, hi: nat)
    requires 1 <= lo <= hi <= |prices|
    requires forall i :: lo <= i < hi ==> prices[i - 1] <= prices[i]
    ensures Losses(prices, lo, hi) == 0.0
    decreases hi - lo
  {
    if hi > lo {
      NoLossesWhenRising(prices, lo, hi - 1);
    }
  }

  // ---------------------------------------------------------------- EMA

  /** The smoothing factor 2 / (period + 1). */
  function Multiplier(period: nat): real
  {
    2.0 / (period as real + 1.0)
  }

  /** EMA seeded with the first price, folded over the rest. */
  function EmaFold(prices: seq<real>, m: real): real
    requires |prices| >= 1
  {
    if |prices| == 1 then prices[0]
    else prices[|prices| - 1] * m + EmaFold(prices[..|prices| - 1], m) * (1.0 - m)
  }

  /** Exponential moving average: 0 for no prices, the price itself for one. */
  function Ema(prices: seq<real>, period: nat): real
  {
    if |prices| == 0 then 0.0
    else if |prices| == 1 then prices[0]
    else EmaFold(prices, Multiplier(period))
  }

  /** The accumulating loop of `calculateEMA`. */
  method ComputeEma(prices: seq<real>, period: nat) returns (r: real)
    ensures r == Ema(prices, period)
  {
    if |prices| == 0 {
      return 0.0;
    }
    if |prices| == 1 {
      return prices[0];
    }
    var multiplier := 2.0 / (period as real + 1.0);
    var ema := prices[0];
    var i := 1;
    while i < |prices|
      invariant 1 <= i <= |prices|
      invariant ema == EmaFold(prices[..i], multiplier)
    {
      assert prices[..i + 1][..i] == prices[..i];
      ema := prices[i] * multiplier + ema * (1.0 - multiplier);
      i := i + 1;
    }
    assert prices[..i] == prices;
    r := ema;
  }

  /** One smoothing step with a factor in (0, 1] stays inside [lo, hi]. */
  lemma ConvexStep(x: real, e: real, m: real, lo: real, hi: real)
    requires 0.0 < m <= 1.0
    requires lo <= x <= hi && lo <= e <= hi
    ensures lo <= x * m + e * (1.0 - m) <= hi
  {
    var n := 1.0 - m;
    assert n >= 0.0;
    var a, b := x * m, e * n;
    NonNegativeProduct(x - lo, m);
    NonNegativeProduct(hi - x, m);
    NonNegativeProduct(e - lo, n);
    NonNegativeProduct(hi - e, n);
    assert lo * m <= a <= hi * m;
    assert lo * n <= b <= hi * n;
    assert lo * m + lo * n == lo;
    assert hi * m + hi * n == hi;
    assert a + b == x * m + e * (1.0 - m);
  }

  lemma {:induction false} EmaFoldBounds(prices: seq<real>, m: real, lo: real, hi: real)
    requires |prices| >= 1 && 0.0 < m <= 1.0
    requires forall i :: 0 <= i < |prices| ==> lo <= prices[i] <= hi
    ensures lo <= EmaFold(prices, m) <= hi
  {
    if |prices| > 1 {
      var p := prices[..|prices| - 1];
      assert forall i :: 0 <= i < |p| ==> p[i] == prices[i];
      EmaFoldBounds(p, m, lo, hi);
      ConvexStep(prices[|prices| - 1], EmaFold(p, m), m, lo, hi);
    }
  }

  /** For a period of at least 1 the EMA lies between the smallest and the
      largest price; in particular a constant series yields that constant. */
  lemma EmaBounds(prices: seq<real>, period: nat, lo: real, hi: real)
    requires period >= 1 && |prices| >= 1
    requires forall i :: 0 <= i < |prices| ==> lo <= prices[i] <= hi
    ensures lo <= Ema(prices, period) <= hi
  {
    if |prices| > 1 {
      var m := Multiplier(period);
      assert period as real + 1.0 >= 2.0;
      assert 0.0 < m <= 1.0;
      EmaFoldBounds(prices, m, lo, hi);
    }
  }

  /** The EMA of a constant series is that constant. */
  lemma EmaConstant(prices: seq<real>, period: nat, c: real)
    requires period >= 1 && |prices| >= 1
    requires forall i :: 0 <= i < |prices| ==> prices[i] == c
    ensures Ema(prices, period) == c
  {
    EmaBounds(prices, period, c, c);
  }

  // ---------------------------------------------------------------- MACD

  /** MACD line EMA12 - EMA26; its "signal" is the EMA of the single value
      [macd], which is the MACD line itself, so the histogram is always 0. */
  function MacdOf(prices: seq<real>): (r: Macd)
    ensures r.macd == Ema(prices, 12) - Ema(prices, 26)
    ensures r.signal == r.macd && r.histogram == 0.0
  {
    var macd := Ema(prices, 12) - Ema(prices, 26);
    var signal := Ema([macd], 9);
    Macd(macd, signal, macd - signal)
  }

  // ------------------------------------------------ processHistoricalData

  /** The closes of a kline sequence. */
  function Closes(ks: seq<Kline>): (r: seq<real>)
    ensures |r| == |ks| && forall i :: 0 <= i < |ks| ==> r[i] == ks[i].close
  {
    seq(|ks|, i requires 0 <= i < |ks| => ks[i].close)
  }

  /** The data point of kline k whose prefix of closes (ending with k's) is `prices`. */
  function PointOf(k: Kline, prices: seq<real>): DataPoint
  {
    var m := MacdOf(prices);
    DataPoint(k.openTime, k.open, k.high, k.low, k.close, k.volume,
              Rsi(prices, RsiPeriod), Sma(prices, 20), Sma(prices, 50),
              m.macd, m.signal, m.histogram, None, None)
  }

  /** Indicators of point i are computed from the closes of klines 0..i only. */
  function ProcessHistoricalData(ks: seq<Kline>): (r: seq<DataPoint>)
    ensures |r| == |ks|
    ensures forall i :: 0 <= i < |ks| ==>
      r[i] == PointOf(ks[i], Closes(ks[..i + 1])) &&
      r[i].timestamp == ks[i].openTime && r[i].close == ks[i].close &&
      r[i].classLabel.None? && r[i].profitability.None?
  {
    seq(|ks|, i requires 0 <= i < |ks| => PointOf(ks[i], Closes(ks[..i + 1])))
  }

  /** No lookahead: two series that agree on klines 0..i give point i the same
      indicators, whatever follows. */
  lemma NoLookahead(a: seq<Kline>, b: seq<Kline>, i: nat)
    requires i < |a| && i < |b| && a[..i + 1] == b[..i + 1]
    ensures ProcessHistoricalData(a)[i] == ProcessHistoricalData(b)[i]
  {
    assert a[i] == a[..i + 1][i] == b[i];
  }

  /** Over positive closes every processed point has positive SMAs, so the
      price-versus-SMA features never divide by zero. */
  lemma ProcessedSmasPositive(ks: seq<Kline>, i: nat)
    requires i < |ks|
    requires forall j :: 0 <= j < |ks| ==> ks[j].close > 0.0
    ensures ProcessHistoricalData(ks)[i].sma20 > 0.0
    ensures ProcessHistoricalData(ks)[i].sma50 > 0.0
  {
    var p := Closes(ks[..i + 1]);
    SmaPositive(p, 20);
    SmaPositive(p, 50);
  }

  // --------------------------------------------------------- labelling

  /** The label and profitability of point i, looking `lookAhead` bars ahead. */
  function LabelOf(data: seq<DataPoint>, i: nat, lookAhead: nat): (Action, real)
    requires i < |data| && data[i].close != 0.0
  {
    if i >= |data| - lookAhead then (Hold, 0.0)
    else
      var currentPrice := data[i].close;
      // `data[index + lookAheadHours]?.close || currentPrice`
      var futurePrice := Or(Finite(data[i + lookAhead].close), currentPrice);
      var priceChange := (futurePrice - currentPrice) / currentPrice;
      if priceChange > 0.02 then (Buy, priceChange)
      else if priceChange < -0.02 then (Sell, -priceChange)
      else (Hold, 0.0)
  }

  /** `labelHistoricalData`: every point keeps its fields and gains a label. */
  function LabelHistoricalData(data: seq<DataPoint>, lookAhead: nat): (r: seq<DataPoint>)
    requires forall i :: 0 <= i < |data| ==> data[i].close != 0.0
    ensures |r| == |data|
    ensures forall i :: 0 <= i < |data| ==>
      r[i].classLabel.Some? && r[i].profitability.Some? &&
      r[i].(classLabel := data[i].classLabel, profitability := data[i].profitability) == data[i]
    ensures forall i :: 0 <= i < |data| && i >= |data| - lookAhead ==>
      r[i].classLabel == Some(Hold) && r[i].profitability == Some(0.0)
    ensures forall i :: 0 <= i < |data| ==> r[i].profitability.value >= 0.0
  {
    seq(|data|, i requires 0 <= i < |data| =>
      var (action, profitability) := LabelOf(data, i, lookAhead);
      data[i].(classLabel := Some(action), profitability := Some(profitability)))
  }

  /** The ±2% rule on the change to bar i + lookAhead. */
  lemma LabelRule(data: seq<DataPoint>, lookAhead: nat, i: nat)
    requires forall j :: 0 <= j < |data| ==> data[j].close > 0.0
    requires i + lookAhead < |data|
    ensures var change := (data[i + lookAhead].close - data[i].close) / data[i].close;
            var p := LabelHistoricalData(data, lookAhead)[i];
            (change > 0.02 ==> p.classLabel == Some(Buy) && p.profitability == Some(change)) &&
            (change < -0.02 ==> p.classLabel == Some(Sell) && p.profitability == Some(-change)) &&
            (-0.02 <= change <= 0.02 ==> p.classLabel == Some(Hold) && p.profitability == Some(0.0))
  {
  }
}

/** The fixed-order, length-10 feature vector. The same literal is built in
    four places (training preparation, incremental learning, the backtest's
    ML signal and the live prediction hook), each time from the fields of a
    different record; this module builds it once from the ten quantities. */
module Features {
  import opened Common

  const FeatureCount: nat := 10

  /** `[rsi || 50, sma20 || price, sma50 || price, macd || 0, signal || 0,
      histogram || 0, volume || 0, (price - sma20) / sma20 || 0,
      (sma20 - sma50) / sma50 || 0, profitability]`. */
  function FeatureVector(rsi: real, sma20: real, sma50: real, macd: real, signal: real,
                         histogram: real, volume: real, price: real, profitability: real): (f: seq<real>)
    ensures |f| == FeatureCount
    ensures f[9] == profitability
  {
    [Or(Finite(rsi), 50.0),
     Or(Finite(sma20), price),
     Or(Finite(sma50), price),
     Or(Finite(macd), 0.0),
     Or(Finite(signal), 0.0),
     Or(Finite(histogram), 0.0),
     Or(Finite(volume), 0.0),
     Or(Div(price - sma20, sma20), 0.0),
     Or(Div(sma20 - sma50, sma50), 0.0),
     profitability]
  }

  /** The vector of a record whose indicator fields may be missing. A missing
      field used only under `||` behaves exactly as a zero one, so it is
      passed on as 0. The SMA trend ratio is the exception: a missing SMA20
      enters its numerator undefined, which makes the ratio NaN and the entry
      0, whereas a zero SMA20 would give -1; that entry is overridden. */
  function SnapshotFeatures(rsi: Option<real>, sma20: Option<real>, sma50: Option<real>, macd: Option<real>,
                            signal: Option<real>, histogram: Option<real>, volume: Option<real>,
                            price: real, profitability: real): (f: seq<real>)
    ensures |f| == FeatureCount && f[9] == profitability
    ensures f[0] == (if rsi.Some? && rsi.value != 0.0 then rsi.value else 50.0)
    ensures f[1] == (if sma20.Some? && sma20.value != 0.0 then sma20.value else price)
    ensures f[2] == (if sma50.Some? && sma50.value != 0.0 then sma50.value else price)
    ensures f[3] == (if macd.Some? then macd.value else 0.0)
    ensures f[4] == (if signal.Some? then signal.value else 0.0)
    ensures f[5] == (if histogram.Some? then histogram.value else 0.0)
    ensures f[6] == (if volume.Some? then volume.value else 0.0)
    ensures f[7] == (if sma20.Some? && sma20.value != 0.0 then (price - sma20.value) / sma20.value else 0.0)
    ensures f[8] == (if sma20.Some? && sma50.Some? && sma50.value != 0.0
                     then (sma20.value - sma50.value) / sma50.value else 0.0)
  {
    var r, s20, s50 := OrOpt(rsi, 0.0), OrOpt(sma20, 0.0), OrOpt(sma50, 0.0);
    var m, sg, h, v := OrOpt(macd, 0.0), OrOpt(signal, 0.0), OrOpt(histogram, 0.0), OrOpt(volume, 0.0);
    FeatureFallbacks(r, s20, s50, m, sg, h, v, price, profitability);
    var f := FeatureVector(r, s20, s50, m, sg, h, v, price, profitability);
    if sma20.None? then f[8 := 0.0] else f
  }

  /** What each fallback does: a zero RSI reads as the neutral 50, a zero SMA
      is replaced by the price, and a trend ratio over a zero SMA is 0. The
      oscillator and volume terms pass through unchanged. */
  lemma FeatureFallbacks(rsi: real, sma20: real, sma50: real, macd: real, signal: real,
                         histogram: real, volume: real, price: real, profitability: real)
    ensures var f := FeatureVector(rsi, sma20, sma50, macd, signal, histogram, volume, price, profitability);
      f[0] == (if rsi == 0.0 then 50.0 else rsi) && f[0] != 0.0 &&
      f[1] == (if sma20 == 0.0 then price else sma20) &&
      f[2] == (if sma50 == 0.0 then price else sma50) &&
      f[3] == macd && f[4] == signal && f[5] == histogram && f[6] == volume &&
      f[7] == (if sma20 == 0.0 then 0.0 else (price - sma20) / sma20) &&
      f[8] == (if sma50 == 0.0 then 0.0 else (sma20 - sma50) / sma50)
  {
  }
}

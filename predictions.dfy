/** The ML prediction hook (`useMLPredictions`): the feature vector built
    from a market snapshot, the newest-first prediction history capped at
    50, the readiness flag read from the model status, the strength band of
    a prediction and the confidence-based accuracy estimate. */
module PredictionHooks {
  import opened Common
  import opened Features
  import opened MLModel

  /** The nested `macd` record of a snapshot, each part possibly missing. */
  datatype MacdFields = MacdFields(macd: Option<real>, signal: Option<real>, histogram: Option<real>)

  /** A market snapshot as handed to `makePrediction`; any field but the
      price may be missing. */
  datatype MarketData = MarketData(rsi: Option<real>, sma20: Option<real>, sma50: Option<real>,
                                   macd: Option<MacdFields>, volume: Option<real>, price: real)

  /** A prediction with its time and the features it was made from. */
  datatype MlPrediction = MlPrediction(prediction: Prediction, timestamp: int, features: seq<real>)

  datatype PredictionsData = PredictionsData(currentPrediction: Option<MlPrediction>,
                                             predictionHistory: seq<MlPrediction>,
                                             isModelReady: bool, lastUpdate: int)

  datatype Strength = Weak | Moderate | Strong

  const HistoryCapacity: nat := 50

  const AccuracyWindow: nat := 10

  const InitialData := PredictionsData(None, [], false, 0)

  /** `marketData.macd?.<part>`: missing when the record or the part is. */
  function MacdPart(m: Option<MacdFields>, part: nat): Option<real>
  {
    match m
    case None => None
    case Some(f) => if part == 0 then f.macd else if part == 1 then f.signal else f.histogram
  }

  /** The feature vector of a snapshot, its MACD parts read through the
      optional record. The profitability slot is 0. */
  function PredictionFeatures(m: MarketData): (f: seq<real>)
    ensures |f| == FeatureCount && f[9] == 0.0
    ensures f[0] == (if m.rsi.Some? && m.rsi.value != 0.0 then m.rsi.value else 50.0)
    ensures f[1] == (if m.sma20.Some? && m.sma20.value != 0.0 then m.sma20.value else m.price)
    ensures f[2] == (if m.sma50.Some? && m.sma50.value != 0.0 then m.sma50.value else m.price)
    ensures f[6] == (if m.volume.Some? then m.volume.value else 0.0)
    ensures f[7] == (if m.sma20.Some? && m.sma20.value != 0.0 then (m.price - m.sma20.value) / m.sma20.value else 0.0)
    ensures f[8] == (if m.sma20.Some? && m.sma50.Some? && m.sma50.value != 0.0
                     then (m.sma20.value - m.sma50.value) / m.sma50.value else 0.0)
    ensures m.macd.None? ==> f[3] == 0.0 && f[4] == 0.0 && f[5] == 0.0
  {
    SnapshotFeatures(m.rsi, m.sma20, m.sma50, MacdPart(m.macd, 0), MacdPart(m.macd, 1), MacdPart(m.macd, 2),
                     m.volume, m.price, 0.0)
  }

  /** The state after a prediction: it becomes current and heads the
      history, which keeps at most 50 entries. */
  function Record(st: PredictionsData, p: MlPrediction, updated: int): (r: PredictionsData)
    ensures r.currentPrediction == Some(p) && r.lastUpdate == updated && r.isModelReady == st.isModelReady
    ensures |r.predictionHistory| == Min(|st.predictionHistory| + 1, HistoryCapacity)
    ensures r.predictionHistory[0] == p
    ensures r.predictionHistory[1..] == st.predictionHistory[..|r.predictionHistory| - 1]
  {
    st.(currentPrediction := Some(p),
        predictionHistory := PushCapped(st.predictionHistory, p, HistoryCapacity),
        lastUpdate := updated)
  }

  /** The history after a run of predictions. */
  function RecordAll(st: PredictionsData, ps: seq<MlPrediction>, updated: int): PredictionsData
  {
    if ps == [] then st else Record(RecordAll(st, ps[..|ps| - 1], updated), ps[|ps| - 1], updated)
  }

  lemma {:induction false} RecordAllHistory(st: PredictionsData, ps: seq<MlPrediction>, updated: int)
    ensures RecordAll(st, ps, updated).predictionHistory == PushAll(st.predictionHistory, ps, HistoryCapacity)
    ensures ps != [] ==> RecordAll(st, ps, updated).currentPrediction == Some(ps[|ps| - 1])
  {
    if ps != [] {
      RecordAllHistory(st, ps[..|ps| - 1], updated);
    }
  }

  /** After a run of predictions the history holds the newest 50, newest
      first, and the current prediction is its head. */
  lemma PredictionHistoryNewestFirst(st: PredictionsData, ps: seq<MlPrediction>, updated: int)
    requires |st.predictionHistory| <= HistoryCapacity && ps != []
    ensures var r := RecordAll(st, ps, updated);
      r.predictionHistory == Take(Reverse(ps) + st.predictionHistory, HistoryCapacity) &&
      r.currentPrediction == Some(r.predictionHistory[0])
  {
    RecordAllHistory(st, ps, updated);
    PushAllNewestFirst(st.predictionHistory, ps, HistoryCapacity);
  }

  /** `makePrediction`: the snapshot's features go to the model service,
      whose answer is stamped and recorded. */
  method MakePrediction(svc: ModelService, st: PredictionsData, m: MarketData,
                        tanh: real -> real, exp: real -> real, stamp: int, updated: int)
    returns (p: MlPrediction, r: PredictionsData)
    requires svc.Valid() && ExpPositive(exp)
    modifies svc`recentPredictions
    ensures svc.Valid()
    ensures p.features == PredictionFeatures(m) && p.timestamp == stamp
    ensures !svc.hasModel ==>
      p.prediction == FallbackPrediction(p.features) && svc.recentPredictions == old(svc.recentPredictions)
    ensures svc.hasModel ==>
      p.prediction == TrainedPrediction(exp, svc.Score(p.features, tanh)) &&
      svc.recentPredictions == Remember(old(svc.recentPredictions), PredictionRecord(p.prediction, stamp))
    ensures r == Record(st, p, updated)
  {
    var features := PredictionFeatures(m);
    var prediction := svc.Predict(features, tanh, exp, stamp);
    p := MlPrediction(prediction, stamp, features);
    r := Record(st, p, updated);
  }

  /** `checkModelStatus`: the model is ready when trained and not training. */
  function CheckModelStatus(st: PredictionsData, status: ModelStatus): (r: PredictionsData)
    ensures r.isModelReady <==> status.trained && !status.training
    ensures r.currentPrediction == st.currentPrediction && r.predictionHistory == st.predictionHistory
    ensures r.lastUpdate == st.lastUpdate
  {
    st.(isModelReady := status.trained && !status.training)
  }

  /** `getSignalStrength`: STRONG from 80, MODERATE from 60, WEAK below and
      for no prediction. */
  function GetSignalStrength(p: Option<MlPrediction>): (s: Strength)
    ensures p.None? ==> s == Weak
    ensures p.Some? ==>
      (s == Strong <==> p.value.prediction.confidence >= 80.0) &&
      (s == Moderate <==> 60.0 <= p.value.prediction.confidence < 80.0) &&
      (s == Weak <==> p.value.prediction.confidence < 60.0)
  {
    if p.None? then Weak
    else if p.value.prediction.confidence >= 80.0 then Strong
    else if p.value.prediction.confidence >= 60.0 then Moderate
    else Weak
  }

  function Rank(s: Strength): nat
  {
    match s
    case Weak => 0
    case Moderate => 1
    case Strong => 2
  }

  /** A more confident prediction is never weaker. */
  lemma StrengthMonotone(a: MlPrediction, b: MlPrediction)
    requires a.prediction.confidence <= b.prediction.confidence
    ensures Rank(GetSignalStrength(Some(a))) <= Rank(GetSignalStrength(Some(b)))
  {
  }

  /** The untrained fallback's predictions are MODERATE: it reports 60 or 70. */
  lemma FallbackIsModerate(m: MarketData, stamp: int)
    ensures var f := PredictionFeatures(m);
      GetSignalStrength(Some(MlPrediction(FallbackPrediction(f), stamp, f))) == Moderate
  {
  }

  function Confidences(ps: seq<MlPrediction>): (r: seq<real>)
    ensures |r| == |ps| && forall i :: 0 <= i < |ps| ==> r[i] == ps[i].prediction.confidence
  {
    seq(|ps|, i requires 0 <= i < |ps| => ps[i].prediction.confidence)
  }

  /** `getRecentAccuracy`: 0 without predictions, else 0.8 times the mean
      confidence of the newest ten, capped at 95. */
  function GetRecentAccuracy(history: seq<MlPrediction>): (a: real)
    ensures history == [] ==> a == 0.0
    ensures a <= 95.0
  {
    var recent := Take(history, AccuracyWindow);
    if |recent| == 0 then 0.0
    else
      var avgConfidence := Sum(Confidences(recent)) / |recent| as real;
      if avgConfidence * 0.8 < 95.0 then avgConfidence * 0.8 else 95.0
  }

  lemma MeanBounds(total: real, n: nat, lo: real, hi: real)
    requires n > 0 && n as real * lo <= total <= n as real * hi
    ensures lo <= total / n as real <= hi
  {
  }

  /** With confidences in [0, 100] the estimate lies in [0, 80]: the cap at
      95 is never reached. Only the newest ten predictions count. */
  lemma RecentAccuracyBounds(history: seq<MlPrediction>)
    requires forall i :: 0 <= i < |history| ==> 0.0 <= history[i].prediction.confidence <= 100.0
    ensures 0.0 <= GetRecentAccuracy(history) <= 80.0
    ensures GetRecentAccuracy(history) == GetRecentAccuracy(Take(history, AccuracyWindow))
  {
    var recent := Take(history, AccuracyWindow);
    if |recent| > 0 {
      SumBounds(Confidences(recent), 0.0, 100.0);
      MeanBounds(Sum(Confidences(recent)), |recent|, 0.0, 100.0);
    }
  }
}

/** The classifier service: training-data preparation, the fallback rule of
    an untrained model, the trained linear score and its softmax, the bounded
    history of recent predictions, incremental learning, and evaluation with
    a 3-class confusion matrix. `tanh` and `exp` are parameters (the model
    assumes only the laws stated for them); `Math.random` and `Date.now` are
    parameters too. */
module MLModel {
  import opened Common
  import opened Features
  import opened Indicators

  datatype Probabilities = Probabilities(buy: real, sell: real, hold: real)

  datatype Prediction = Prediction(action: Action, confidence: real, probability: Probabilities)

  /** An entry of the recent-predictions buffer (no actual/profit is ever recorded). */
  datatype PredictionRecord = PredictionRecord(prediction: Prediction, timestamp: int)

  datatype PerClass = PerClass(buy: real, sell: real, hold: real)

  datatype Metrics = Metrics(accuracy: Number, precision: PerClass, recall: PerClass,
                             f1Score: real, roi: real, winRate: real,
                             totalTrades: nat, profitableTrades: nat)

  datatype TrainingData = TrainingData(features: seq<seq<real>>, labels: seq<int>)

  datatype ModelStatus = ModelStatus(trained: bool, training: bool,
                                     trainingHistory: seq<Metrics>,
                                     recentPredictions: seq<PredictionRecord>)

  /** The record handed to incremental learning: a market snapshot whose
      indicator fields may be missing, with an optional true label. */
  datatype Sample = Sample(price: real, rsi: Option<real>, sma20: Option<real>, sma50: Option<real>,
                           macd: Option<real>, signal: Option<real>, histogram: Option<real>,
                           volume: Option<real>, profitability: Option<real>, classLabel: Option<Action>)

  datatype ClassCounts = ClassCounts(tp: nat, fp: nat, fn: nat)

  datatype Confusion = Confusion(buy: ClassCounts, sell: ClassCounts, hold: ClassCounts)

  const RecentCapacity: nat := 100
  const StatusWindow: nat := 10
  const LearningRate: real := 0.01

  /** The exponential is positive. */
  ghost predicate ExpPositive(exp: real -> real)
  {
    forall x :: exp(x) > 0.0
  }

  /** Laws of the real exponential used to pin down the trained prediction. */
  ghost predicate ExpLaws(exp: real -> real)
  {
    ExpPositive(exp) && exp(0.0) == 1.0 &&
    (forall x :: exp(x) >= 1.0 + x) &&
    (forall x, y :: x < y ==> exp(x) < exp(y))
  }

  /** The range of the hyperbolic tangent. */
  ghost predicate TanhLaws(tanh: real -> real)
  {
    forall x :: -1.0 < tanh(x) < 1.0
  }

  // ------------------------------------------------ training data

  /** The points that carry a label (`if (point.label)`), in order. */
  function Labeled(data: seq<DataPoint>): (r: seq<DataPoint>)
    ensures |r| <= |data|
    ensures forall k :: 0 <= k < |r| ==> r[k].classLabel.Some?
  {
    if data == [] then []
    else
      var last := data[|data| - 1];
      Labeled(data[..|data| - 1]) + (if last.classLabel.Some? then [last] else [])
  }

  /** The feature vector of a labelled historical point. */
  function PointFeatures(p: DataPoint): seq<real>
  {
    FeatureVector(p.rsi, p.sma20, p.sma50, p.macd, p.signal, p.histogram, p.volume,
                  p.close, OrOpt(p.profitability, 0.0))
  }

  /** BUY = 1, SELL = -1, HOLD = 0 (`labelMap[label] || 0`). */
  function LabelValue(a: Action): (v: int)
    ensures -1 <= v <= 1
  {
    match a
    case Buy => 1
    case Sell => -1
    case Hold => 0
  }

  /** `prepareTrainingData`: one feature vector and one label per labelled point. */
  method PrepareTrainingData(data: seq<DataPoint>) returns (td: TrainingData)
    ensures var l := Labeled(data);
      |td.features| == |td.labels| == |l| <= |data| &&
      forall k {:trigger l[k]} :: 0 <= k < |l| ==>
        td.features[k] == PointFeatures(l[k]) && td.labels[k] == LabelValue(l[k].classLabel.value)
    ensures forall k :: 0 <= k < |td.features| ==> |td.features[k]| == FeatureCount
    ensures forall k :: 0 <= k < |td.labels| ==> -1 <= td.labels[k] <= 1
  {
    var features: seq<seq<real>> := [];
    var labels: seq<int> := [];
    var i := 0;
    while i < |data|
      invariant 0 <= i <= |data|
      invariant var l := Labeled(data[..i]);
        |features| == |labels| == |l| &&
        forall k :: 0 <= k < |l| ==>
          features[k] == PointFeatures(l[k]) && labels[k] == LabelValue(l[k].classLabel.value)
    {
      assert data[..i + 1][..i] == data[..i];
      var point := data[i];
      if point.classLabel.Some? {
        features := features + [PointFeatures(point)];
        labels := labels + [LabelValue(point.classLabel.value)];
      }
      i := i + 1;
    }
    assert data[..i] == data;
    td := TrainingData(features, labels);
  }

  // ------------------------------------------------ fallback prediction

  /** `features[0] || 50`. */
  function FallbackRsi(features: seq<real>): real
  {
    if |features| > 0 && features[0] != 0.0 then features[0] else 50.0
  }

  /** `features[7] || 0`: price versus SMA20. */
  function FallbackTrend(features: seq<real>): real
  {
    if |features| > 7 then features[7] else 0.0
  }

  /** The probability a prediction gives to an action. */
  function ProbabilityOf(p: Probabilities, a: Action): real
  {
    match a
    case Buy => p.buy
    case Sell => p.sell
    case Hold => p.hold
  }

  /** The rule of an untrained model: BUY at 70 on oversold RSI with a rising
      trend, SELL at 70 on overbought RSI with a falling trend, else HOLD at 60;
      the other two actions share the rest of the 100 equally. */
  function FallbackPrediction(features: seq<real>): (p: Prediction)
    ensures var rsi := FallbackRsi(features);
      var trend := FallbackTrend(features);
      (p.action == Buy <==> rsi < 30.0 && trend > 0.0) &&
      (p.action == Sell <==> rsi > 70.0 && trend < 0.0) &&
      p.confidence == (if p.action == Hold then 60.0 else 70.0)
    ensures p.probability.buy + p.probability.sell + p.probability.hold == 100.0
    ensures ProbabilityOf(p.probability, p.action) == p.confidence
    ensures forall a :: a != p.action ==> ProbabilityOf(p.probability, a) == (100.0 - p.confidence) / 2.0
  {
    var rsi := FallbackRsi(features);
    var priceTrend := FallbackTrend(features);
    var (action, confidence) :=
      if rsi < 30.0 && priceTrend > 0.0 then (Buy, 70.0)
      else if rsi > 70.0 && priceTrend < 0.0 then (Sell, 70.0)
      else (Hold, 60.0);
    Prediction(action, confidence, Probabilities(
      if action == Buy then confidence else (100.0 - confidence) / 2.0,
      if action == Sell then confidence else (100.0 - confidence) / 2.0,
      if action == Hold then confidence else (100.0 - confidence) / 2.0))
  }

  // ------------------------------------------------ trained prediction

  function Max3(a: real, b: real, c: real): (m: real)
    ensures m >= a && m >= b && m >= c && (m == a || m == b || m == c)
  {
    if a >= b && a >= c then a else if b >= c then b else c
  }

  /** `softmax(scores)` on three scores, shifted by their maximum. */
  function Softmax(exp: real -> real, a: real, b: real, c: real): (p: Probabilities)
    requires ExpPositive(exp)
    ensures p.buy + p.sell + p.hold == 1.0
    ensures p.buy > 0.0 && p.sell > 0.0 && p.hold > 0.0
  {
    var maxScore := Max3(a, b, c);
    var ea, eb, ec := exp(a - maxScore), exp(b - maxScore), exp(c - maxScore);
    var sumExp := ea + eb + ec;
    Normalised(ea, eb, ec);
    Probabilities(ea / sumExp, eb / sumExp, ec / sumExp)
  }

  lemma Normalised(a: real, b: real, c: real)
    requires a > 0.0 && b > 0.0 && c > 0.0
    ensures a / (a + b + c) + b / (a + b + c) + c / (a + b + c) == 1.0
    ensures a / (a + b + c) > 0.0 && b / (a + b + c) > 0.0 && c / (a + b + c) > 0.0
  {
    var s := a + b + c;
    assert a / s + b / s + c / s == (a + b + c) / s;
  }

  /** `actions[probabilities.indexOf(Math.max(...probabilities))]`: the first
      action with the largest probability. */
  function ArgMax(p: Probabilities): (a: Action)
    ensures ProbabilityOf(p, a) == Max3(p.buy, p.sell, p.hold)
    ensures a == Buy <==> p.buy >= p.sell && p.buy >= p.hold
    ensures a == Sell <==> p.buy < p.sell && p.sell >= p.hold
    ensures a == Hold <==> p.buy < p.hold && p.sell < p.hold
  {
    if p.buy >= p.sell && p.buy >= p.hold then Buy
    else if p.sell >= p.hold then Sell
    else Hold
  }

  /** The trained path of `predict` for a model score. */
  function TrainedPrediction(exp: real -> real, score: real): (p: Prediction)
    requires ExpPositive(exp)
    ensures p.probability.buy + p.probability.sell + p.probability.hold == 100.0
    ensures ProbabilityOf(p.probability, p.action) == p.confidence
    ensures 0.0 < p.confidence <= 100.0
  {
    var probabilities := Softmax(exp, score + 0.1, score - 0.1, score);
    var confidence := Max3(probabilities.buy, probabilities.sell, probabilities.hold) * 100.0;
    var action := ArgMax(probabilities);
    Prediction(action, confidence,
      Probabilities(probabilities.buy * 100.0, probabilities.sell * 100.0, probabilities.hold * 100.0))
  }

  /** The softmax of [s + 0.1, s - 0.1, s] is shifted by its maximum s + 0.1,
      so it is exp(0), exp(-0.2), exp(-0.1) normalised: the trained prediction
      does not depend on the score at all. */
  lemma TrainedPredictionIgnoresScore(exp: real -> real, s: real, t: real)
    requires ExpPositive(exp)
    ensures TrainedPrediction(exp, s) == TrainedPrediction(exp, t)
  {
    assert Max3(s + 0.1, s - 0.1, s) == s + 0.1;
    assert Max3(t + 0.1, t - 0.1, t) == t + 0.1;
    assert Softmax(exp, s + 0.1, s - 0.1, s) == Softmax(exp, t + 0.1, t - 0.1, t);
  }

  lemma TrainedPredictionConstant(exp: real -> real)
    requires ExpPositive(exp)
    ensures forall s :: TrainedPrediction(exp, s) == TrainedPrediction(exp, 0.0)
  {
    forall s {
      TrainedPredictionIgnoresScore(exp, s, 0.0);
    }
  }

  lemma DivMonotone(a: real, b: real, z: real)
    requires z > 0.0 && a < b
    ensures a / z < b / z
  {
  }

  lemma ReciprocalBelow(z: real)
    requires z >= 2.7
    ensures 1.0 / z < 0.7
  {
    assert 0.7 * z > 1.0;
  }

  /** The softmax a trained model computes, for a score of 0. */
  lemma SoftmaxAtZero(exp: real -> real)
    requires ExpPositive(exp)
    ensures var z := exp(0.0) + exp(-0.2) + exp(-0.1);
      Softmax(exp, 0.1, -0.1, 0.0) == Probabilities(exp(0.0) / z, exp(-0.2) / z, exp(-0.1) / z)
  {
    assert Max3(0.1, -0.1, 0.0) == 0.1;
    assert 0.1 - 0.1 == 0.0 && -0.1 - 0.1 == -0.2 && 0.0 - 0.1 == -0.1;
  }

  lemma NormalisedRanks(e0: real, e1: real, e2: real)
    requires e0 == 1.0 && e1 >= 0.8 && e2 >= 0.9 && e1 < e2 < e0
    ensures var z := e0 + e1 + e2; e1 / z < e2 / z < e0 / z < 0.7
  {
    var z := e0 + e1 + e2;
    DivMonotone(e1, e2, z);
    DivMonotone(e2, e0, z);
    ReciprocalBelow(z);
  }

  /** Under the laws of exp, that softmax ranks BUY first, then HOLD, then
      SELL, and BUY gets less than 0.7. */
  lemma SoftmaxAtZeroRanks(exp: real -> real)
    requires ExpLaws(exp)
    ensures var p := Softmax(exp, 0.1, -0.1, 0.0);
      p.sell < p.hold < p.buy < 0.7
  {
    SoftmaxAtZero(exp);
    assert exp(-0.2) >= 1.0 + -0.2 && exp(-0.1) >= 1.0 + -0.1;
    assert exp(-0.2) < exp(-0.1) < exp(0.0);
    NormalisedRanks(exp(0.0), exp(-0.2), exp(-0.1));
  }

  /** Under the laws of exp, a trained model always predicts BUY, with a
      confidence below 70 (about 36.7 for the real exponential). */
  lemma TrainedPredictionIsWeakBuy(exp: real -> real, s: real)
    requires ExpLaws(exp)
    ensures TrainedPrediction(exp, s).action == Buy
    ensures TrainedPrediction(exp, s).confidence < 70.0
  {
    TrainedPredictionIgnoresScore(exp, s, 0.0);
    SoftmaxAtZeroRanks(exp);
    assert 0.0 + 0.1 == 0.1 && 0.0 - 0.1 == -0.1;
    var p := Softmax(exp, 0.1, -0.1, 0.0);
    assert ArgMax(p) == Buy;
    assert Max3(p.buy, p.sell, p.hold) == p.buy;
  }

  // ------------------------------------------------ recent predictions

  /** `push` then one `shift` when over capacity. */
  function Remember(rp: seq<PredictionRecord>, rec: PredictionRecord): (r: seq<PredictionRecord>)
    requires |rp| <= RecentCapacity
    ensures |r| <= RecentCapacity
  {
    var pushed := rp + [rec];
    if |pushed| > RecentCapacity then pushed[1..] else pushed
  }

  /** The buffer keeps the newest 100 records, newest last: below capacity a
      record is appended, at capacity the oldest one is dropped. */
  lemma RememberKeepsNewest(rp: seq<PredictionRecord>, rec: PredictionRecord)
    requires |rp| <= RecentCapacity
    ensures Remember(rp, rec) == Last(rp + [rec], RecentCapacity)
    ensures Remember(rp, rec)[|Remember(rp, rec)| - 1] == rec
    ensures |rp| < RecentCapacity ==> Remember(rp, rec) == rp + [rec]
    ensures |rp| == RecentCapacity ==> Remember(rp, rec) == rp[1..] + [rec]
  {
  }

  /** n successive `Remember`s of the same record. */
  function RememberAll(rp: seq<PredictionRecord>, rec: PredictionRecord, n: nat): (r: seq<PredictionRecord>)
    requires |rp| <= RecentCapacity
    ensures |r| <= RecentCapacity
  {
    if n == 0 then rp else Remember(RememberAll(rp, rec, n - 1), rec)
  }

  // ------------------------------------------------ linear score

  /** Sum of f[i] * w[i] for i < n. */
  function Dot(f: seq<real>, w: seq<real>, n: nat): real
    requires n <= |f| && n <= |w|
  {
    if n == 0 then 0.0 else Dot(f, w, n - 1) + f[n - 1] * w[n - 1]
  }

  /** Sum of f[i] * f[i] for i < n. */
  function SumSquares(f: seq<real>, n: nat): (r: real)
    requires n <= |f|
    ensures r >= 0.0
  {
    if n == 0 then 0.0 else SumSquares(f, n - 1) + f[n - 1] * f[n - 1]
  }

  /** The pre-activation score: bias plus the dot product over the first
      min(|features|, |weights|) entries. */
  function LinearScore(w: seq<real>, bias: real, f: seq<real>): real
  {
    bias + Dot(f, w, Min(|f|, |w|))
  }

  /** Each weight moves by step * feature. */
  function Nudge(w: seq<real>, f: seq<real>, step: real): (r: seq<real>)
    requires |w| <= |f|
    ensures |r| == |w|
    ensures forall i :: 0 <= i < |w| ==> r[i] == w[i] + step * f[i]
  {
    seq(|w|, i requires 0 <= i < |w| => w[i] + step * f[i])
  }

  /** Sum of step * (f[i] * f[i]) for i < n. */
  function ScaledSquares(f: seq<real>, step: real, n: nat): real
    requires n <= |f|
  {
    if n == 0 then 0.0 else ScaledSquares(f, step, n - 1) + step * (f[n - 1] * f[n - 1])
  }

  lemma NudgeTerm(a: real, w: real, step: real)
    ensures a * (w + step * a) == a * w + step * (a * a)
  {
  }

  lemma Distribute2(a: real, b: real, c: real)
    ensures a * (b + c) == a * b + a * c
  {
  }

  /** The weight loop of `incrementalLearning`, in place. */
  method NudgeInPlace(a: array<real>, f: seq<real>, step: real)
    requires a.Length <= |f|
    modifies a
    ensures a[..] == Nudge(old(a[..]), f, step)
  {
    var i := 0;
    while i < a.Length
      invariant 0 <= i <= a.Length
      invariant forall k :: 0 <= k < i ==> a[k] == old(a[k]) + step * f[k]
      invariant forall k :: i <= k < a.Length ==> a[k] == old(a[k])
    {
      a[i] := a[i] + step * f[i];
      i := i + 1;
    }
  }

  lemma {:induction false} ScaledSquaresIsProduct(f: seq<real>, step: real, n: nat)
    requires n <= |f|
    ensures ScaledSquares(f, step, n) == step * SumSquares(f, n)
  {
    if n > 0 {
      ScaledSquaresIsProduct(f, step, n - 1);
      Distribute2(step, SumSquares(f, n - 1), f[n - 1] * f[n - 1]);
    }
  }

  /** Moving every weight by step * feature moves the first n terms of the
      dot product by the scaled squares. */
  lemma {:induction false} DotShift(f: seq<real>, w: seq<real>, v: seq<real>, step: real, n: nat)
    requires n <= |w| <= |f| && |v| == |w|
    requires forall i :: 0 <= i < |w| ==> v[i] == w[i] + step * f[i]
    ensures Dot(f, v, n) == Dot(f, w, n) + ScaledSquares(f, step, n)
  {
    if n > 0 {
      DotShift(f, w, v, step, n - 1);
      NudgeTerm(f[n - 1], w[n - 1], step);
    }
  }

  lemma DotAfterNudge(f: seq<real>, w: seq<real>, step: real, n: nat)
    requires n <= |w| <= |f|
    ensures Dot(f, Nudge(w, f, step), n) == Dot(f, w, n) + step * SumSquares(f, n)
  {
    DotShift(f, w, Nudge(w, f, step), step, n);
    ScaledSquaresIsProduct(f, step, n);
  }

  lemma TermSign(step: real, a: real)
    ensures step >= 0.0 ==> step * (a * a) >= 0.0
    ensures step <= 0.0 ==> step * (a * a) <= 0.0
  {
    assert a * a >= 0.0;
  }

  /** The scaled squares have the sign of the step. */
  lemma {:induction false} ScaledSquaresSign(f: seq<real>, step: real, n: nat)
    requires n <= |f|
    ensures step >= 0.0 ==> ScaledSquares(f, step, n) >= 0.0
    ensures step <= 0.0 ==> ScaledSquares(f, step, n) <= 0.0
  {
    if n > 0 {
      ScaledSquaresSign(f, step, n - 1);
      TermSign(step, f[n - 1]);
    }
  }

  /** A step of the incremental update (weights nudged by step * feature,
      bias by step) raises the linear score by step plus step * f[i]^2 for
      every weighted feature (that is, step * (1 + sum of squares), by
      `ScaledSquaresIsProduct`): with step = 0.01 * (target - score) it moves
      the score towards the target. */
  lemma UpdateMovesTowardTarget(w: seq<real>, bias: real, f: seq<real>, step: real)
    requires |w| <= |f|
    ensures LinearScore(Nudge(w, f, step), bias + step, f) ==
      LinearScore(w, bias, f) + step + ScaledSquares(f, step, |w|)
    ensures step > 0.0 ==> LinearScore(Nudge(w, f, step), bias + step, f) > LinearScore(w, bias, f)
    ensures step < 0.0 ==> LinearScore(Nudge(w, f, step), bias + step, f) < LinearScore(w, bias, f)
  {
    var v := Nudge(w, f, step);
    assert Min(|f|, |v|) == Min(|f|, |w|) == |w|;
    DotShift(f, w, v, step, |w|);
    ScaledSquaresSign(f, step, |w|);
  }

  /** Target value of a true label. */
  function Target(a: Action): real
  {
    match a
    case Buy => 1.0
    case Sell => -1.0
    case Hold => 0.0
  }

  /** `extractFeatures`: the feature vector of a live sample (price, not close). */
  function ExtractFeatures(s: Sample): (f: seq<real>)
    ensures |f| == FeatureCount
    ensures f[0] == (if s.rsi.Some? && s.rsi.value != 0.0 then s.rsi.value else 50.0)
    ensures f[1] == (if s.sma20.Some? && s.sma20.value != 0.0 then s.sma20.value else s.price)
    ensures f[2] == (if s.sma50.Some? && s.sma50.value != 0.0 then s.sma50.value else s.price)
    ensures f[3] == (if s.macd.Some? then s.macd.value else 0.0)
    ensures f[4] == (if s.signal.Some? then s.signal.value else 0.0)
    ensures f[5] == (if s.histogram.Some? then s.histogram.value else 0.0)
    ensures f[6] == (if s.volume.Some? then s.volume.value else 0.0)
    ensures f[7] == (if s.sma20.Some? && s.sma20.value != 0.0 then (s.price - s.sma20.value) / s.sma20.value else 0.0)
    ensures f[8] == (if s.sma20.Some? && s.sma50.Some? && s.sma50.value != 0.0
                     then (s.sma20.value - s.sma50.value) / s.sma50.value else 0.0)
    ensures f[9] == (if s.profitability.Some? then s.profitability.value else 0.0)
  {
    SnapshotFeatures(s.rsi, s.sma20, s.sma50, s.macd, s.signal, s.histogram, s.volume,
                     s.price, OrOpt(s.profitability, 0.0))
  }

  // ------------------------------------------------ confusion matrix

  function At(m: Confusion, c: Action): ClassCounts
  {
    match c
    case Buy => m.buy
    case Sell => m.sell
    case Hold => m.hold
  }

  function TotalTp(m: Confusion): nat { m.buy.tp + m.sell.tp + m.hold.tp }
  function TotalFp(m: Confusion): nat { m.buy.fp + m.sell.fp + m.hold.fp }
  function TotalFn(m: Confusion): nat { m.buy.fn + m.sell.fn + m.hold.fn }

  /** The matrix with the counts of class c replaced. */
  function With(m: Confusion, c: Action, k: ClassCounts): Confusion
  {
    match c
    case Buy => m.(buy := k)
    case Sell => m.(sell := k)
    case Hold => m.(hold := k)
  }

  /** `updateConfusionMatrix` on values: a hit counts one tp of its class; a
      miss counts one fp of the predicted class and one fn of the actual one. */
  function Tally(m: Confusion, predicted: Action, actual: Action): Confusion
  {
    if predicted == actual then
      With(m, predicted, At(m, predicted).(tp := At(m, predicted).tp + 1))
    else
      var m1 := With(m, predicted, At(m, predicted).(fp := At(m, predicted).fp + 1));
      With(m1, actual, At(m1, actual).(fn := At(m1, actual).fn + 1))
  }

  /** Exactly one tp, or one fp of the predicted class together with one fn
      of the actual class, is counted; nothing else changes. */
  lemma TallyCounts(m: Confusion, predicted: Action, actual: Action)
    ensures var r := Tally(m, predicted, actual);
      (predicted == actual ==> At(r, predicted) == At(m, predicted).(tp := At(m, predicted).tp + 1)) &&
      (predicted != actual ==>
        At(r, predicted) == At(m, predicted).(fp := At(m, predicted).fp + 1) &&
        At(r, actual) == At(m, actual).(fn := At(m, actual).fn + 1)) &&
      forall c :: c != predicted && c != actual ==> At(r, c) == At(m, c)
  {
  }

  /** Hence each update adds one to tp + fp and one to tp + fn, and one tp
      exactly on a hit. */
  lemma TallyTotals(m: Confusion, predicted: Action, actual: Action)
    ensures var r := Tally(m, predicted, actual);
      TotalTp(r) + TotalFp(r) == TotalTp(m) + TotalFp(m) + 1 &&
      TotalTp(r) + TotalFn(r) == TotalTp(m) + TotalFn(m) + 1 &&
      TotalTp(r) == TotalTp(m) + (if predicted == actual then 1 else 0)
  {
  }

  // ------------------------------------------------ precision, recall, F1

  /** tp / (tp + fp) || 0. */
  function Precision(c: ClassCounts): (r: real)
    ensures 0.0 <= r <= 1.0
    ensures r == 0.0 <==> c.tp == 0
    ensures c.tp > 0 ==> r * (c.tp + c.fp) as real == c.tp as real
  {
    Or(Div(c.tp as real, (c.tp + c.fp) as real), 0.0)
  }

  /** tp / (tp + fn) || 0. */
  function Recall(c: ClassCounts): (r: real)
    ensures 0.0 <= r <= 1.0
    ensures r == 0.0 <==> c.tp == 0
    ensures c.tp > 0 ==> r * (c.tp + c.fn) as real == c.tp as real
  {
    Or(Div(c.tp as real, (c.tp + c.fn) as real), 0.0)
  }

  function CalculatePrecision(m: Confusion): PerClass
  {
    PerClass(Precision(m.buy), Precision(m.sell), Precision(m.hold))
  }

  function CalculateRecall(m: Confusion): PerClass
  {
    PerClass(Recall(m.buy), Recall(m.sell), Recall(m.hold))
  }

  /** 2 * (p * r) / (p + r) || 0. */
  function F1(p: real, r: real): real
  {
    Or(Div(2.0 * (p * r), p + r), 0.0)
  }

  lemma ProductBelow(p: real, r: real)
    requires 0.0 <= p <= 1.0 && 0.0 <= r <= 1.0
    ensures 0.0 <= p * r <= p && p * r <= r
    ensures p == 0.0 || r == 0.0 ==> p * r == 0.0
    ensures 2.0 * (p * r) <= p + r
  {
    var q, t := 1.0 - r, 1.0 - p;
    NonNegativeProduct(p, q);
    NonNegativeProduct(r, t);
    assert p * q == p - p * r;
    assert r * t == r - p * r;
  }

  lemma QuotientBelowOne(x: real, y: real)
    requires 0.0 <= x <= y && y > 0.0
    ensures 0.0 <= x / y <= 1.0 && (x / y) * y == x
  {
  }

  /** F1 of a precision and a recall in [0, 1] is in [0, 1], is 0 when
      either is 0, and is otherwise their harmonic mean. */
  lemma F1Bounds(p: real, r: real)
    requires 0.0 <= p <= 1.0 && 0.0 <= r <= 1.0
    ensures 0.0 <= F1(p, r) <= 1.0
    ensures p == 0.0 || r == 0.0 ==> F1(p, r) == 0.0
    ensures p > 0.0 && r > 0.0 ==> F1(p, r) * (p + r) == 2.0 * (p * r)
  {
    ProductBelow(p, r);
    var x := 2.0 * (p * r);
    if p + r > 0.0 {
      QuotientBelowOne(x, p + r);
      assert F1(p, r) == (if x / (p + r) != 0.0 then x / (p + r) else 0.0);
    } else {
      assert F1(p, r) == 0.0;
    }
  }

  /** Macro F1: the mean of the three per-class F1 values. */
  function CalculateF1Score(precision: PerClass, recall: PerClass): real
  {
    (F1(precision.buy, recall.buy) + F1(precision.sell, recall.sell) + F1(precision.hold, recall.hold)) / 3.0
  }

  /** Precision, recall and macro F1 of any confusion matrix lie in [0, 1]. */
  lemma ScoresInRange(m: Confusion)
    ensures var p, r := CalculatePrecision(m), CalculateRecall(m);
      0.0 <= p.buy <= 1.0 && 0.0 <= p.sell <= 1.0 && 0.0 <= p.hold <= 1.0 &&
      0.0 <= r.buy <= 1.0 && 0.0 <= r.sell <= 1.0 && 0.0 <= r.hold <= 1.0 &&
      0.0 <= CalculateF1Score(p, r) <= 1.0
  {
    var p, r := CalculatePrecision(m), CalculateRecall(m);
    F1Bounds(p.buy, r.buy);
    F1Bounds(p.sell, r.sell);
    F1Bounds(p.hold, r.hold);
  }

  function DefaultMetrics(): Metrics
  {
    Metrics(Finite(0.0), PerClass(0.0, 0.0, 0.0), PerClass(0.0, 0.0, 0.0), 0.0, 0.0, 0.0, 0, 0)
  }

  /** The bounds an evaluation result keeps. */
  ghost predicate MetricsInRange(m: Metrics)
  {
    (m.accuracy.Finite? ==> 0.0 <= m.accuracy.value <= 1.0) &&
    0.0 <= m.precision.buy <= 1.0 && 0.0 <= m.precision.sell <= 1.0 && 0.0 <= m.precision.hold <= 1.0 &&
    0.0 <= m.recall.buy <= 1.0 && 0.0 <= m.recall.sell <= 1.0 && 0.0 <= m.recall.hold <= 1.0 &&
    0.0 <= m.f1Score <= 1.0 && 0.0 <= m.winRate <= 1.0 &&
    m.profitableTrades <= m.totalTrades
  }

  lemma RateInRange(x: nat, y: nat)
    requires x <= y
    ensures y > 0 ==> 0.0 <= x as real / y as real <= 1.0
  {
    if y > 0 {
      QuotientBelowOne(x as real, y as real);
    }
  }

  /** The record `evaluateModel` builds from its counters: accuracy is
      correct / n (NaN for n = 0), the win rate profitable / trades (0
      without trades), and every rate lies in [0, 1]. */
  function EvaluationMetrics(correct: nat, n: nat, cm: Confusion, totalROI: real,
                             totalTrades: nat, profitableTrades: nat): (m: Metrics)
    requires correct <= n && profitableTrades <= totalTrades
    ensures MetricsInRange(m)
    ensures m.accuracy == (if n == 0 then NaN else Finite(correct as real / n as real))
    ensures m.winRate == (if totalTrades > 0 then profitableTrades as real / totalTrades as real else 0.0)
    ensures m.totalTrades == totalTrades && m.profitableTrades == profitableTrades && m.roi == totalROI
    ensures m.precision == CalculatePrecision(cm) && m.recall == CalculateRecall(cm)
    ensures m.f1Score == CalculateF1Score(m.precision, m.recall)
  {
    ScoresInRange(cm);
    RateInRange(correct, n);
    RateInRange(profitableTrades, totalTrades);
    var precision, recall := CalculatePrecision(cm), CalculateRecall(cm);
    Metrics(Div(correct as real, n as real), precision, recall, CalculateF1Score(precision, recall), totalROI,
            if totalTrades > 0 then profitableTrades as real / totalTrades as real else 0.0,
            totalTrades, profitableTrades)
  }

  /** The true label of test sample i: 1 is BUY, -1 is SELL, anything else HOLD. */
  function Actual(td: TrainingData, i: nat): Action
  {
    if i < |td.labels| && td.labels[i] == 1 then Buy
    else if i < |td.labels| && td.labels[i] == -1 then Sell
    else Hold
  }

  /** How many of the first n test samples have true label a. */
  function CountActual(td: TrainingData, a: Action, n: nat): (c: nat)
    ensures c <= n
  {
    if n == 0 then 0 else CountActual(td, a, n - 1) + (if Actual(td, n - 1) == a then 1 else 0)
  }

  /** The k-th simulated trade return of an evaluation, from the draw
      random(offset + k): a value in [-0.05, 0.05) for a draw in [0, 1). */
  function SimulatedRoi(random: nat -> real, offset: nat, k: nat): real
  {
    random(offset + k) * 0.1 - 0.05
  }

  /** The sum of the first k simulated returns. */
  function TotalRoi(random: nat -> real, offset: nat, k: nat): real
  {
    if k == 0 then 0.0 else TotalRoi(random, offset, k - 1) + SimulatedRoi(random, offset, k - 1)
  }

  /** How many of the first k simulated returns are positive. */
  function ProfitableDraws(random: nat -> real, offset: nat, k: nat): (c: nat)
    ensures c <= k
  {
    if k == 0 then 0 else ProfitableDraws(random, offset, k - 1) + (if SimulatedRoi(random, offset, k - 1) > 0.0 then 1 else 0)
  }

  const NoCounts := Confusion(ClassCounts(0, 0, 0), ClassCounts(0, 0, 0), ClassCounts(0, 0, 0))

  /** The confusion matrix after the first n test samples, each predicted
      as `predicted`. */
  function TallyAll(td: TrainingData, predicted: Action, n: nat): Confusion
  {
    if n == 0 then NoCounts else Tally(TallyAll(td, predicted, n - 1), predicted, Actual(td, n - 1))
  }

  /** The matrix counts the hits as its true positives, and every sample
      once among tp + fp and once among tp + fn. */
  lemma {:induction false} TallyAllTotals(td: TrainingData, predicted: Action, n: nat)
    ensures var m := TallyAll(td, predicted, n);
      TotalTp(m) == CountActual(td, predicted, n) &&
      TotalTp(m) + TotalFp(m) == n && TotalTp(m) + TotalFn(m) == n
  {
    if n > 0 {
      TallyAllTotals(td, predicted, n - 1);
      TallyTotals(TallyAll(td, predicted, n - 1), predicted, Actual(td, n - 1));
    }
  }

  // ------------------------------------------------ the service

  class ModelService {
    /** `this.model !== null`; a model, once built, is always `trained: true`. */
    var hasModel: bool
    var weights: array<real>
    var bias: real
    var trainingSize: nat
    var isTraining: bool
    var trainingHistory: seq<Metrics>
    var recentPredictions: seq<PredictionRecord>

    ghost predicate Valid()
      reads this
    {
      (weights.Length == 0 || weights.Length == FeatureCount) &&
      |recentPredictions| <= RecentCapacity
    }

    constructor ()
      ensures Valid() && fresh(weights)
      ensures !hasModel && !isTraining && trainingHistory == [] && recentPredictions == []
    {
      hasModel := false;
      weights := new real[0];
      bias := 0.0;
      trainingSize := 0;
      isTraining := false;
      trainingHistory := [];
      recentPredictions := [];
    }

    /** What `calculateModelScore` returns: tanh of the linear score, or 0
        without a model. */
    function Score(features: seq<real>, tanh: real -> real): real
      reads this`hasModel, this`weights, this`bias, weights
    {
      if !hasModel then 0.0 else tanh(LinearScore(weights[..], bias, features))
    }

    /** The accumulating loop of `calculateModelScore`. */
    method CalculateModelScore(features: seq<real>, tanh: real -> real) returns (score: real)
      ensures score == Score(features, tanh)
      ensures TanhLaws(tanh) ==> -1.0 < score < 1.0
    {
      if !hasModel {
        return 0.0;
      }
      var s := bias;
      var n := Min(|features|, weights.Length);
      var i := 0;
      while i < n
        invariant 0 <= i <= n
        invariant s == bias + Dot(features, weights[..], i)
      {
        s := s + features[i] * weights[i];
        i := i + 1;
      }
      score := tanh(s);
    }

    /** `predict`: the fallback rule without a model; otherwise the softmax
        prediction, remembered in the bounded buffer. */
    method Predict(features: seq<real>, tanh: real -> real, exp: real -> real, now: int) returns (p: Prediction)
      requires Valid() && ExpPositive(exp)
      modifies this`recentPredictions
      ensures Valid()
      ensures !hasModel ==> p == FallbackPrediction(features) && recentPredictions == old(recentPredictions)
      ensures hasModel ==>
        p == TrainedPrediction(exp, Score(features, tanh)) &&
        recentPredictions == Remember(old(recentPredictions), PredictionRecord(p, now))
    {
      if !hasModel {
        return FallbackPrediction(features);
      }
      var score := CalculateModelScore(features, tanh);
      p := TrainedPrediction(exp, score);
      var rp := recentPredictions + [PredictionRecord(p, now)];
      if |rp| > RecentCapacity {
        rp := rp[1..];
      }
      recentPredictions := rp;
    }

    /** `incrementalLearning`: a single linear step towards the sample's
        label, skipped without a model, during training, or without a label. */
    method IncrementalLearning(sample: Sample, tanh: real -> real)
      requires Valid()
      modifies this`bias, weights
      ensures Valid()
      ensures !(hasModel && !isTraining && sample.classLabel.Some?) ==>
        weights[..] == old(weights[..]) && bias == old(bias)
      ensures hasModel && !isTraining && sample.classLabel.Some? ==>
        var f := ExtractFeatures(sample);
        var step := LearningRate * (Target(sample.classLabel.value) - old(Score(f, tanh)));
        weights[..] == Nudge(old(weights[..]), f, step) && bias == old(bias) + step
    {
      if !hasModel || isTraining {
        return;
      }
      var features := ExtractFeatures(sample);
      if sample.classLabel.Some? {
        var target := Target(sample.classLabel.value);
        var prediction := CalculateModelScore(features, tanh);
        var error := target - prediction;
        var delta := LearningRate * error;
        NudgeInPlace(weights, features, delta);
        bias := bias + delta;
      }
    }

    /** `evaluateModel`: predict every test sample, count hits, simulated
        trades (random(offset + k) is the k-th `Math.random()` draw of the
        evaluation) and the confusion matrix. A trained model predicts the
        same action for every sample. */
    method EvaluateModel(td: TrainingData, tanh: real -> real, exp: real -> real, random: nat -> real, offset: nat, now: int)
      returns (m: Metrics)
      requires Valid() && ExpPositive(exp)
      modifies this`recentPredictions
      ensures Valid()
      ensures !hasModel ==> m == DefaultMetrics() && recentPredictions == old(recentPredictions)
      ensures hasModel ==>
        var n := |td.features|;
        var p := TrainedPrediction(exp, 0.0);
        var trading := p.action != Hold;
        MetricsInRange(m) &&
        m == EvaluationMetrics(CountActual(td, p.action, n), n, TallyAll(td, p.action, n),
                               if trading then TotalRoi(random, offset, n) else 0.0,
                               if trading then n else 0,
                               if trading then ProfitableDraws(random, offset, n) else 0) &&
        recentPredictions == RememberAll(old(recentPredictions), PredictionRecord(p, now), n)
    {
      if !hasModel {
        return DefaultMetrics();
      }
      TrainedPredictionConstant(exp);
      var correct, totalTrades, profitableTrades, totalROI, cm :=
        CountSamples(td, tanh, exp, random, offset, now, TrainedPrediction(exp, 0.0));
      m := EvaluationMetrics(correct, |td.features|, cm, totalROI, totalTrades, profitableTrades);
    }

    /** The loop of `evaluateModel` for a trained model, whose prediction is
        the same prediction c for every input: the hits, the simulated trades
        and the confusion matrix, which counts the hits as its tp and every
        sample once in tp + fp and once in tp + fn. */
    method CountSamples(td: TrainingData, tanh: real -> real, exp: real -> real, random: nat -> real, offset: nat,
                        now: int, ghost c: Prediction)
      returns (correct: nat, totalTrades: nat, profitableTrades: nat, totalROI: real, cm: Confusion)
      requires Valid() && hasModel && ExpPositive(exp)
      requires forall s :: TrainedPrediction(exp, s) == c
      modifies this`recentPredictions
      ensures Valid()
      ensures correct == CountActual(td, c.action, |td.features|)
      ensures totalTrades == (if c.action == Hold then 0 else |td.features|)
      ensures totalROI == (if c.action == Hold then 0.0 else TotalRoi(random, offset, |td.features|))
      ensures profitableTrades == (if c.action == Hold then 0 else ProfitableDraws(random, offset, |td.features|))
      ensures cm == TallyAll(td, c.action, |td.features|)
      ensures TotalTp(cm) == correct
      ensures TotalTp(cm) + TotalFp(cm) == |td.features| && TotalTp(cm) + TotalFn(cm) == |td.features|
      ensures recentPredictions == RememberAll(old(recentPredictions), PredictionRecord(c, now), |td.features|)
    {
      correct, totalTrades, profitableTrades, totalROI := 0, 0, 0, 0.0;
      cm := NoCounts;
      ghost var start := recentPredictions;
      var i := 0;
      while i < |td.features|
        invariant 0 <= i <= |td.features|
        invariant Valid() && hasModel
        invariant recentPredictions == RememberAll(start, PredictionRecord(c, now), i)
        invariant correct == CountActual(td, c.action, i)
        invariant totalTrades == (if c.action == Hold then 0 else i)
        invariant totalROI == (if c.action == Hold then 0.0 else TotalRoi(random, offset, i))
        invariant profitableTrades == (if c.action == Hold then 0 else ProfitableDraws(random, offset, i))
        invariant cm == TallyAll(td, c.action, i)
      {
        var action := PredictSample(td.features[i], tanh, exp, now, c);
        var actual := Actual(td, i);
        if action == actual {
          correct := correct + 1;
        }
        if action != Hold {
          var simulatedROI := SimulatedRoi(random, offset, totalTrades);
          totalTrades := totalTrades + 1;
          totalROI := totalROI + simulatedROI;
          if simulatedROI > 0.0 {
            profitableTrades := profitableTrades + 1;
          }
        }
        cm := Tally(cm, action, actual);
        i := i + 1;
      }
      TallyAllTotals(td, c.action, |td.features|);
    }

    /** One `predict` call of `evaluateModel`'s loop: the trained model's
        constant prediction c, which is remembered. */
    method PredictSample(x: seq<real>, tanh: real -> real, exp: real -> real, now: int, ghost c: Prediction)
      returns (action: Action)
      requires Valid() && hasModel && ExpPositive(exp)
      requires forall s :: TrainedPrediction(exp, s) == c
      modifies this`recentPredictions
      ensures Valid()
      ensures action == c.action
      ensures recentPredictions == Remember(old(recentPredictions), PredictionRecord(c, now))
    {
      var prediction := Predict(x, tanh, exp, now);
      action := prediction.action;
    }

    /** First half of `trainModel`, up to its `await`: the flag goes up. */
    method StartTraining()
      modifies this`isTraining
      ensures isTraining
    {
      isTraining := true;
    }

    /** Second half of `trainModel`: build the simulated model (weight i is
        random(i) * 2 - 1, the bias the next draw), evaluate it on the
        training data, log the metrics and lower the flag. */
    method CompleteTraining(data: seq<DataPoint>, random: nat -> real, tanh: real -> real, exp: real -> real, now: int)
      requires Valid() && ExpPositive(exp)
      modifies this
      ensures Valid() && fresh(weights) && hasModel && !isTraining
      ensures var n := |Labeled(data)|;
        trainingSize == n &&
        weights.Length == (if n == 0 then 0 else FeatureCount) &&
        (forall i :: 0 <= i < weights.Length ==> weights[i] == random(i) * 2.0 - 1.0) &&
        bias == random(weights.Length) * 2.0 - 1.0 &&
        recentPredictions == RememberAll(old(recentPredictions), PredictionRecord(TrainedPrediction(exp, 0.0), now), n)
      ensures |trainingHistory| == |old(trainingHistory)| + 1 &&
        trainingHistory[..|old(trainingHistory)|] == old(trainingHistory) &&
        MetricsInRange(trainingHistory[|trainingHistory| - 1])
    {
      var td := PrepareTrainingData(data);
      var size: nat := if |td.features| > 0 then |td.features[0]| else 0;
      BuildModel(size, |td.features|, random);
      EvaluateAndLog(td, tanh, exp, random, size + 1, now);
      isTraining := false;
    }

    /** The metrics of the freshly built model on its training data are
        appended to the history. */
    method EvaluateAndLog(td: TrainingData, tanh: real -> real, exp: real -> real, random: nat -> real,
                          offset: nat, now: int)
      requires Valid() && hasModel && ExpPositive(exp)
      modifies this`recentPredictions, this`trainingHistory
      ensures Valid()
      ensures recentPredictions ==
        RememberAll(old(recentPredictions), PredictionRecord(TrainedPrediction(exp, 0.0), now), |td.features|)
      ensures |trainingHistory| == |old(trainingHistory)| + 1 &&
        trainingHistory[..|old(trainingHistory)|] == old(trainingHistory) &&
        MetricsInRange(trainingHistory[|trainingHistory| - 1])
    {
      var metrics := EvaluateModel(td, tanh, exp, random, offset, now);
      trainingHistory := trainingHistory + [metrics];
    }

    /** `simulateModelTraining`: size weights random(i) * 2 - 1 and a bias
        from the next draw. */
    method BuildModel(size: nat, samples: nat, random: nat -> real)
      modifies this`weights, this`bias, this`hasModel, this`trainingSize
      ensures fresh(weights) && weights.Length == size && hasModel && trainingSize == samples
      ensures forall i :: 0 <= i < size ==> weights[i] == random(i) * 2.0 - 1.0
      ensures bias == random(size) * 2.0 - 1.0
    {
      weights := new real[size](i => random(i) * 2.0 - 1.0);
      bias := random(size) * 2.0 - 1.0;
      hasModel := true;
      trainingSize := samples;
    }

    /** `trainModel` run without interleaving. */
    method TrainModel(data: seq<DataPoint>, random: nat -> real, tanh: real -> real, exp: real -> real, now: int)
      requires Valid() && ExpPositive(exp)
      modifies this
      ensures Valid() && fresh(weights) && hasModel && !isTraining
      ensures var n := |Labeled(data)|;
        trainingSize == n &&
        weights.Length == (if n == 0 then 0 else FeatureCount) &&
        (forall i :: 0 <= i < weights.Length ==> weights[i] == random(i) * 2.0 - 1.0) &&
        bias == random(weights.Length) * 2.0 - 1.0 &&
        recentPredictions == RememberAll(old(recentPredictions), PredictionRecord(TrainedPrediction(exp, 0.0), now), n)
      ensures |trainingHistory| == |old(trainingHistory)| + 1 &&
        trainingHistory[..|old(trainingHistory)|] == old(trainingHistory) &&
        MetricsInRange(trainingHistory[|trainingHistory| - 1])
    {
      StartTraining();
      CompleteTraining(data, random, tanh, exp, now);
    }

    /** `getModelStatus`: the flags, the history and the last 10 predictions. */
    function GetModelStatus(): (s: ModelStatus)
      reads this
      ensures s.trained == hasModel && s.training == isTraining
      ensures s.trainingHistory == trainingHistory
      ensures |s.recentPredictions| == Min(|recentPredictions|, StatusWindow)
      ensures s.recentPredictions == recentPredictions[|recentPredictions| - |s.recentPredictions|..]
    {
      ModelStatus(hasModel, isTraining, trainingHistory, Last(recentPredictions, StatusWindow))
    }
  }

  /** The fallback never acts with a confidence above 70. */
  lemma FallbackConfidenceAtMost70(features: seq<real>)
    ensures FallbackPrediction(features).confidence <= 70.0
  {
  }
}

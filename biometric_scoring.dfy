/// The biometric fatigue detector: six saturating per-signal scores and
/// their weighted total.
module BiometricScoring {
  import opened Clamping
  import opened DriverRecord

  // Thresholds set by the detector's constructor.
  const ThresholdHrLow: real := 60.0
  const ThresholdHrvLow: real := 30.0
  const ThresholdEdaLow: real := 3.0
  const ThresholdPerclosHigh: real := 0.40
  const ThresholdBlinkDurationHigh: real := 500.0
  const ThresholdBlinkRateHigh: real := 25.0

  /** Heart-rate score: zero at or above 60 bpm, rising to 1 at 45 bpm. */
  function HrFatigue(hr: real): (s: real)
    ensures 0.0 <= s <= 1.0
    ensures s == 0.0 <==> hr >= ThresholdHrLow
    ensures s == 1.0 <==> hr <= ThresholdHrLow - 15.0
  {
    if hr > ThresholdHrLow then 0.0 else Min(1.0, (ThresholdHrLow - hr) / 15.0)
  }

  /** HRV score: zero at or above 30 ms, rising to 1 at 15 ms. */
  function HrvFatigue(hrv: real): (s: real)
    ensures 0.0 <= s <= 1.0
    ensures s == 0.0 <==> hrv >= ThresholdHrvLow
    ensures s == 1.0 <==> hrv <= ThresholdHrvLow - 15.0
  {
    if hrv > ThresholdHrvLow then 0.0 else Min(1.0, (ThresholdHrvLow - hrv) / 15.0)
  }

  /** EDA score: zero at or above 3 microsiemens, rising to 1 at 1. */
  function EdaFatigue(eda: real): (s: real)
    ensures 0.0 <= s <= 1.0
    ensures s == 0.0 <==> eda >= ThresholdEdaLow
    ensures s == 1.0 <==> eda <= ThresholdEdaLow - 2.0
  {
    if eda > ThresholdEdaLow then 0.0 else Min(1.0, (ThresholdEdaLow - eda) / 2.0)
  }

  /** PERCLOS score: zero at or below 0.4, rising to 1 at 0.6. */
  function PerclosFatigue(perclos: real): (s: real)
    ensures 0.0 <= s <= 1.0
    ensures s == 0.0 <==> perclos <= ThresholdPerclosHigh
    ensures s == 1.0 <==> perclos >= ThresholdPerclosHigh + 0.2
  {
    if perclos < ThresholdPerclosHigh then 0.0 else Min(1.0, (perclos - ThresholdPerclosHigh) / 0.2)
  }

  /** Blink-duration score: zero at or below 500 ms, rising to 1 at 800 ms. */
  function BlinkDurationFatigue(duration: real): (s: real)
    ensures 0.0 <= s <= 1.0
    ensures s == 0.0 <==> duration <= ThresholdBlinkDurationHigh
    ensures s == 1.0 <==> duration >= ThresholdBlinkDurationHigh + 300.0
  {
    if duration < ThresholdBlinkDurationHigh then 0.0
    else Min(1.0, (duration - ThresholdBlinkDurationHigh) / 300.0)
  }

  /** Blink-rate score: zero at or below 25 per minute, rising to 1 at 35. */
  function BlinkRateFatigue(rate: real): (s: real)
    ensures 0.0 <= s <= 1.0
    ensures s == 0.0 <==> rate <= ThresholdBlinkRateHigh
    ensures s == 1.0 <==> rate >= ThresholdBlinkRateHigh + 10.0
  {
    if rate < ThresholdBlinkRateHigh then 0.0 else Min(1.0, (rate - ThresholdBlinkRateHigh) / 10.0)
  }

  /** The low-is-tired scores never rise as their reading rises; the
      high-is-tired scores never fall. */
  lemma ScoresMonotone(x: real, y: real)
    requires x <= y
    ensures HrFatigue(y) <= HrFatigue(x)
    ensures HrvFatigue(y) <= HrvFatigue(x)
    ensures EdaFatigue(y) <= EdaFatigue(x)
    ensures PerclosFatigue(x) <= PerclosFatigue(y)
    ensures BlinkDurationFatigue(x) <= BlinkDurationFatigue(y)
    ensures BlinkRateFatigue(x) <= BlinkRateFatigue(y)
  {
  }

  /** The keys of the detector's score and weight dictionaries. */
  datatype Metric = HeartRate | Hrv | Eda | Perclos | BlinkDuration | BlinkRate

  /** The metrics in the order `detect_fatigue` inserts them. */
  const Metrics: seq<Metric> := [HeartRate, Hrv, Eda, Perclos, BlinkDuration, BlinkRate]

  /** The detector's weight table. */
  function Weight(m: Metric): real
  {
    match m
    case HeartRate => 0.15
    case Hrv => 0.20
    case Eda => 0.15
    case Perclos => 0.20
    case BlinkDuration => 0.15
    case BlinkRate => 0.15
  }

  /** Sum of the weights of `ms`. */
  function WeightTotal(ms: seq<Metric>): real
  {
    if ms == [] then 0.0 else Weight(ms[0]) + WeightTotal(ms[1..])
  }

  /** No metric is listed twice. */
  predicate Distinct(ms: seq<Metric>)
  {
    forall i, j :: 0 <= i < j < |ms| ==> ms[i] != ms[j]
  }

  /** `Metrics` lists every metric. */
  lemma MetricsComplete()
    ensures forall m: Metric :: m in Metrics
  {
    forall m: Metric ensures m in Metrics {
      match m
      case HeartRate => assert Metrics[0] == m;
      case Hrv => assert Metrics[1] == m;
      case Eda => assert Metrics[2] == m;
      case Perclos => assert Metrics[3] == m;
      case BlinkDuration => assert Metrics[4] == m;
      case BlinkRate => assert Metrics[5] == m;
    }
  }

  /** Every weight is positive, each metric is weighted once, and the
      weights sum to exactly 1 over the reals. */
  lemma WeightsNormalised()
    ensures forall m: Metric :: Weight(m) > 0.0
    ensures Distinct(Metrics) && forall m: Metric :: m in Metrics
    ensures WeightTotal(Metrics) == 1.0
  {
    MetricsComplete();
    assert Metrics[1..] == [Hrv, Eda, Perclos, BlinkDuration, BlinkRate];
    assert Metrics[2..] == [Eda, Perclos, BlinkDuration, BlinkRate];
    assert Metrics[3..] == [Perclos, BlinkDuration, BlinkRate];
    assert Metrics[4..] == [BlinkDuration, BlinkRate];
    assert Metrics[5..] == [BlinkRate];
    assert Metrics[6..] == [];
  }

  /** `sum(score * weights[metric] for metric, score in ...)` over `ms`. */
  function WeightedSum(scores: map<Metric, real>, ms: seq<Metric>): real
    requires forall m :: m in ms ==> m in scores
  {
    if ms == [] then 0.0 else scores[ms[0]] * Weight(ms[0]) + WeightedSum(scores, ms[1..])
  }

  /** Scores in `[0, 1]` give a total between 0 and the weight total; it is
      0 exactly when every score is 0 and reaches the weight total exactly
      when every score is 1. */
  lemma {:induction false} WeightedSumBounds(scores: map<Metric, real>, ms: seq<Metric>)
    requires forall m :: m in ms ==> m in scores && 0.0 <= scores[m] <= 1.0
    ensures 0.0 <= WeightedSum(scores, ms) <= WeightTotal(ms)
    ensures WeightedSum(scores, ms) == 0.0 <==> forall m :: m in ms ==> scores[m] == 0.0
    ensures WeightedSum(scores, ms) == WeightTotal(ms) <==> forall m :: m in ms ==> scores[m] == 1.0
  {
    if ms != [] {
      WeightedSumBounds(scores, ms[1..]);
      assert forall m :: m in ms <==> m == ms[0] || m in ms[1..];
      var w := Weight(ms[0]);
      assert w > 0.0;
      assert 0.0 <= scores[ms[0]] * w <= w;
      assert scores[ms[0]] * w == 0.0 <==> scores[ms[0]] == 0.0;
      assert scores[ms[0]] * w == w <==> scores[ms[0]] == 1.0;
    }
  }

  /** Raising every score (others possibly unchanged) never lowers the total. */
  lemma {:induction false} WeightedSumMonotone(a: map<Metric, real>, b: map<Metric, real>, ms: seq<Metric>)
    requires forall m :: m in ms ==> m in a && m in b && a[m] <= b[m]
    ensures WeightedSum(a, ms) <= WeightedSum(b, ms)
  {
    if ms != [] {
      WeightedSumMonotone(a, b, ms[1..]);
      assert Weight(ms[0]) > 0.0;
    }
  }

  /** Changing one metric's score, the others held fixed, moves the total
      by exactly that metric's weight times the change. */
  lemma {:induction false} WeightedSumUpdate(scores: map<Metric, real>, m: Metric, v: real, ms: seq<Metric>)
    requires forall k :: k in ms ==> k in scores
    requires m in scores && Distinct(ms)
    ensures WeightedSum(scores[m := v], ms)
            == WeightedSum(scores, ms) + (if m in ms then Weight(m) * (v - scores[m]) else 0.0)
  {
    if ms != [] {
      assert Distinct(ms[1..]) by {
        forall i, j | 0 <= i < j < |ms[1..]| ensures ms[1..][i] != ms[1..][j] {
          assert ms[1..][i] == ms[i + 1] && ms[1..][j] == ms[j + 1];
        }
      }
      WeightedSumUpdate(scores, m, v, ms[1..]);
      if ms[0] == m {
        assert m !in ms[1..] by {
          forall j | 0 <= j < |ms[1..]| ensures ms[1..][j] != m {
            assert ms[1..][j] == ms[j + 1];
          }
        }
      } else {
        assert m in ms <==> m in ms[1..];
      }
    }
  }

  /** The reading of `ds` that metric `m` scores. */
  function Reading(ds: DriverState, m: Metric): real
    reads ds
  {
    match m
    case HeartRate => ds.heartRate
    case Hrv => ds.hrv
    case Eda => ds.eda
    case Perclos => ds.perclos
    case BlinkDuration => ds.blinkDuration
    case BlinkRate => ds.blinkRate
  }

  /** The `fatigue_scores` dictionary of `detect_fatigue`. */
  function FatigueScores(ds: DriverState): (scores: map<Metric, real>)
    reads ds
    ensures forall m: Metric :: m in scores && scores[m] == Score(m, Reading(ds, m))
  {
    ScoresCover(ds);
    ScoreTable(ds.heartRate, ds.hrv, ds.eda, ds.perclos, ds.blinkDuration, ds.blinkRate)
  }

  /** The dictionary literal of `detect_fatigue`, one entry per metric. */
  function ScoreTable(hr: real, hrv: real, eda: real, perclos: real,
                      blinkDuration: real, blinkRate: real): map<Metric, real>
  {
    map[HeartRate := HrFatigue(hr),
        Hrv := HrvFatigue(hrv),
        Eda := EdaFatigue(eda),
        Perclos := PerclosFatigue(perclos),
        BlinkDuration := BlinkDurationFatigue(blinkDuration),
        BlinkRate := BlinkRateFatigue(blinkRate)]
  }

  /** The score function `detect_fatigue` applies to metric `m`. */
  function Score(m: Metric, x: real): real
  {
    match m
    case HeartRate => HrFatigue(x)
    case Hrv => HrvFatigue(x)
    case Eda => EdaFatigue(x)
    case Perclos => PerclosFatigue(x)
    case BlinkDuration => BlinkDurationFatigue(x)
    case BlinkRate => BlinkRateFatigue(x)
  }

  /** The dictionary of the state's readings has every metric, each scored
      by its own function of its own reading. */
  lemma ScoresCover(ds: DriverState)
    ensures var scores := ScoreTable(ds.heartRate, ds.hrv, ds.eda, ds.perclos,
                                     ds.blinkDuration, ds.blinkRate);
            forall m: Metric :: m in scores && scores[m] == Score(m, Reading(ds, m))
  {
    var scores := ScoreTable(ds.heartRate, ds.hrv, ds.eda, ds.perclos, ds.blinkDuration, ds.blinkRate);
    forall m: Metric ensures m in scores && scores[m] == Score(m, Reading(ds, m)) {
      match m
      case HeartRate =>
      case Hrv =>
      case Eda =>
      case Perclos =>
      case BlinkDuration =>
      case BlinkRate =>
    }
  }

  /** Scores of all metrics are 0 exactly when the state is rested, and all
      1 exactly when it is saturated. */
  lemma ScoresCharacterise(ds: DriverState)
    ensures (forall m :: m in Metrics ==> FatigueScores(ds)[m] == 0.0) <==> Rested(ds)
    ensures (forall m :: m in Metrics ==> FatigueScores(ds)[m] == 1.0) <==> Saturated(ds)
  {
    var scores := FatigueScores(ds);
    MetricsComplete();
    if Rested(ds) {
      forall m | m in Metrics ensures scores[m] == 0.0 {
        match m
        case HeartRate =>
        case Hrv =>
        case Eda =>
        case Perclos =>
        case BlinkDuration =>
        case BlinkRate =>
      }
    }
    if Saturated(ds) {
      forall m | m in Metrics ensures scores[m] == 1.0 {
        match m
        case HeartRate =>
        case Hrv =>
        case Eda =>
        case Perclos =>
        case BlinkDuration =>
        case BlinkRate =>
      }
    }
    assert scores[HeartRate] == HrFatigue(ds.heartRate);
    assert scores[Hrv] == HrvFatigue(ds.hrv);
    assert scores[Eda] == EdaFatigue(ds.eda);
    assert scores[Perclos] == PerclosFatigue(ds.perclos);
    assert scores[BlinkDuration] == BlinkDurationFatigue(ds.blinkDuration);
    assert scores[BlinkRate] == BlinkRateFatigue(ds.blinkRate);
  }

  /** Every score of the dictionary lies in `[0, 1]`. */
  lemma ScoresInRange(ds: DriverState)
    ensures forall m: Metric :: 0.0 <= FatigueScores(ds)[m] <= 1.0
  {
    forall m: Metric ensures 0.0 <= FatigueScores(ds)[m] <= 1.0 {
      match m
      case HeartRate =>
      case Hrv =>
      case Eda =>
      case Perclos =>
      case BlinkDuration =>
      case BlinkRate =>
    }
  }

  /** Every reading is on the rested side of its threshold. */
  predicate Rested(ds: DriverState)
    reads ds
  {
    && ds.heartRate >= ThresholdHrLow && ds.hrv >= ThresholdHrvLow && ds.eda >= ThresholdEdaLow
    && ds.perclos <= ThresholdPerclosHigh && ds.blinkDuration <= ThresholdBlinkDurationHigh
    && ds.blinkRate <= ThresholdBlinkRateHigh
  }

  /** Every reading is past the point where its score saturates. */
  predicate Saturated(ds: DriverState)
    reads ds
  {
    && ds.heartRate <= 45.0 && ds.hrv <= 15.0 && ds.eda <= 1.0
    && ds.perclos >= 0.6 && ds.blinkDuration >= 800.0 && ds.blinkRate >= 35.0
  }

  /** `detect_fatigue`: the weighted total of the six scores. It lies in
      `[0, 1]`, is 0 exactly when every reading is rested and 1 exactly when
      every score has saturated. */
  function DetectFatigue(ds: DriverState): (total: real)
    reads ds
    ensures 0.0 <= total <= 1.0
    ensures total == 0.0 <==> Rested(ds)
    ensures total == 1.0 <==> Saturated(ds)
  {
    var scores := FatigueScores(ds);
    WeightsNormalised();
    ScoresInRange(ds);
    WeightedSumBounds(scores, Metrics);
    ScoresCharacterise(ds);
    WeightedSum(scores, Metrics)
  }

  /** Holding the other five scores fixed, raising one metric's score by
      `d` raises the total by exactly `Weight(m) * d`, so the total is
      monotone in each score. */
  lemma TotalMonotoneInEachScore(ds: DriverState, m: Metric, v: real)
    ensures var scores := FatigueScores(ds);
            WeightedSum(scores[m := v], Metrics) == DetectFatigue(ds) + Weight(m) * (v - scores[m])
    ensures v >= FatigueScores(ds)[m] ==> WeightedSum(FatigueScores(ds)[m := v], Metrics) >= DetectFatigue(ds)
  {
    WeightsNormalised();
    WeightedSumUpdate(FatigueScores(ds), m, v, Metrics);
  }

  /** The record's default state scores exactly 0. */
  lemma DefaultStateScoresZero(ds: DriverState)
    requires ds.HasDefaults()
    ensures DetectFatigue(ds) == 0.0
  {
  }
}

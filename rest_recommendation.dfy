/// The rest-recommendation system: a two-table Bayesian network turns the
/// driver's state into a risk of an incident, the risk sets how many rest
/// points one tick costs, and when the budget falls below the threshold the
/// driver rests and the budget refills.
///
/// Risk is queried with `Fatigue` unobserved and all four parents of
/// `Fatigue` observed, so exact inference marginalises `Fatigue` out using
/// its table column: `P(Risk = 1) = pF * P(Risk = 1 | fatigued, ...) +
/// (1 - pF) * P(Risk = 1 | rested, ...)`. The parents' prior tables do not
/// affect this value.
module RestRecommendation {
  import opened Clamping
  import FatigueNetwork

  /** The threshold below which the system recommends a rest. */
  const RestThreshold: real := 30.0

  /** A full rest budget. */
  const FullRestPoints: real := 100.0

  // ---------------------------------------------------------------------
  // The two conditional probability tables, rows indexed by the child's
  // state and columns by the parents' joint state, first parent slowest.

  /** `P(Fatigue | TimeOfDay, TimeSinceRest, Pulse, EyelidMovement)`. */
  const FatigueCpt: seq<seq<real>> := [
    [0.9, 0.8, 0.7, 0.6, 0.5, 0.4, 0.3, 0.2, 0.7, 0.6, 0.5, 0.4, 0.3, 0.2, 0.1, 0.05],
    [0.1, 0.2, 0.3, 0.4, 0.5, 0.6, 0.7, 0.8, 0.3, 0.4, 0.5, 0.6, 0.7, 0.8, 0.9, 0.95]]

  /** `P(Risk | Fatigue, Weather, Traffic, RoadType)`. */
  const RiskCpt: seq<seq<real>> := [
    [0.95, 0.8, 0.7, 0.6, 0.5, 0.4, 0.3, 0.2, 0.7, 0.6, 0.5, 0.4, 0.3, 0.2, 0.1, 0.05],
    [0.05, 0.2, 0.3, 0.4, 0.5, 0.6, 0.7, 0.8, 0.3, 0.4, 0.5, 0.6, 0.7, 0.8, 0.9, 0.95]]

  /** A 2 x 16 table whose every column is a probability distribution with
      each entry in `[0.05, 0.95]`. */
  predicate IsBinaryCpt(t: seq<seq<real>>)
  {
    && |t| == 2 && |t[0]| == 16 && |t[1]| == 16
    && forall c :: 0 <= c < 16 ==> t[0][c] + t[1][c] == 1.0 && 0.05 <= t[1][c] <= 0.95
  }

  /** Both tables are well-formed: each column sums to 1. */
  lemma TablesAreDistributions()
    ensures IsBinaryCpt(FatigueCpt) && IsBinaryCpt(RiskCpt)
  {
    forall c | 0 <= c < 16
      ensures FatigueCpt[0][c] + FatigueCpt[1][c] == 1.0 && 0.05 <= FatigueCpt[1][c] <= 0.95
      ensures RiskCpt[0][c] + RiskCpt[1][c] == 1.0 && 0.05 <= RiskCpt[1][c] <= 0.95
    {
      FatigueColumnSums(c);
      RiskColumnSums(c);
    }
  }

  /** Column `c` of the fatigue table, one case per column. */
  lemma FatigueColumnSums(c: nat)
    requires c < 16
    ensures FatigueCpt[0][c] + FatigueCpt[1][c] == 1.0 && 0.05 <= FatigueCpt[1][c] <= 0.95
  {
    match c
    case 0 => case 1 => case 2 => case 3 =>
    case 4 => case 5 => case 6 => case 7 =>
    case 8 => case 9 => case 10 => case 11 =>
    case 12 => case 13 => case 14 => case 15 =>
  }

  /** Column `c` of the risk table, one case per column. */
  lemma RiskColumnSums(c: nat)
    requires c < 16
    ensures RiskCpt[0][c] + RiskCpt[1][c] == 1.0 && 0.05 <= RiskCpt[1][c] <= 0.95
  {
    match c
    case 0 => case 1 => case 2 => case 3 =>
    case 4 => case 5 => case 6 => case 7 =>
    case 8 => case 9 => case 10 => case 11 =>
    case 12 => case 13 => case 14 => case 15 =>
  }

  // ---------------------------------------------------------------------
  // Evidence.

  /** The eight binary evidence values `calculate_rest_points_loss` builds. */
  datatype RiskEvidence = RiskEvidence(
    timeOfDay: nat, timeSinceRest: nat, speed: nat, pulse: nat, eyelidMovement: nat,
    weather: nat, traffic: nat, roadType: nat)

  predicate Binary(e: RiskEvidence)
  {
    && e.timeOfDay < 2 && e.timeSinceRest < 2 && e.speed < 2 && e.pulse < 2
    && e.eyelidMovement < 2 && e.weather < 2 && e.traffic < 2 && e.roadType < 2
  }

  /** The two-hour rest flag, given the time since the last rest as a
      `timedelta` of `elapsed` seconds. */
  function TimeSinceRestFlag(elapsed: real): (b: nat)
    ensures b == 1 <==> elapsed > 7200.0
    ensures b == 0 <==> elapsed <= 7200.0
  {
    FatigueNetwork.Indicator(elapsed > 7200.0)
  }

  /** The flag as the source computes it, from the `seconds` attribute of
      the `timedelta`, which holds only the part of the duration below a
      whole day (`floor(elapsed) mod 86400`). */
  function TimeSinceRestFlagAsWritten(elapsed: real): (b: nat)
    ensures b < 2
  {
    FatigueNetwork.Indicator(elapsed.Floor % 86400 > 7200)
  }

  /** A driver 25 hours past the last rest is flagged as recently rested by
      the flag as written, though more than two hours have passed. */
  lemma TimeSinceRestWrapsAtOneDay()
    ensures TimeSinceRestFlagAsWritten(90000.0) == 0
    ensures TimeSinceRestFlag(90000.0) == 1
  {
    assert 90000.0.Floor == 90000;
  }

  /** A driver 7200.5 seconds past the last rest is not flagged by the flag
      as written, because `seconds` drops the fraction of a second. */
  lemma TimeSinceRestTruncatesSeconds()
    ensures TimeSinceRestFlagAsWritten(7200.5) == 0
    ensures TimeSinceRestFlag(7200.5) == 1
  {
    assert 7200.5.Floor == 7200;
  }

  /** Within the first day the two flags agree on whole seconds. They
      disagree from each multiple of 86400 seconds on (the wrap) and, by the
      truncation, on the open intervals (7200, 7201) + k * 86400. */
  lemma TimeSinceRestFlagsAgreeWithinADay(elapsed: int)
    requires 0 <= elapsed < 86400
    ensures TimeSinceRestFlagAsWritten(elapsed as real) == TimeSinceRestFlag(elapsed as real)
  {
    assert (elapsed as real).Floor == elapsed;
  }

  /** The evidence of `calculate_rest_points_loss`, each value 1 exactly
      when its condition holds. */
  function EvidenceOf(timeOfDay: string, elapsed: real, speed: real, pulse: real, eyelid: real,
                      weather: string, traffic: string, roadType: string): (e: RiskEvidence)
    ensures Binary(e)
    ensures e.timeOfDay == 1 <==> timeOfDay == "night"
    ensures e.timeSinceRest == 1 <==> elapsed > 7200.0
    ensures e.speed == 1 <==> speed > 100.0
    ensures e.pulse == 1 <==> pulse > 85.0
    ensures e.eyelidMovement == 1 <==> eyelid < 0.7
    ensures e.weather == 1 <==> weather == "bad"
    ensures e.traffic == 1 <==> traffic == "high"
    ensures e.roadType == 1 <==> roadType == "local"
  {
    RiskEvidence(
      FatigueNetwork.Indicator(timeOfDay == "night"),
      TimeSinceRestFlag(elapsed),
      FatigueNetwork.Indicator(speed > 100.0),
      FatigueNetwork.Indicator(pulse > 85.0),
      FatigueNetwork.Indicator(eyelid < 0.7),
      FatigueNetwork.Indicator(weather == "bad"),
      FatigueNetwork.Indicator(traffic == "high"),
      FatigueNetwork.Indicator(roadType == "local"))
  }

  /** The fatigue table's column for the evidence. */
  function FatigueColumn(e: RiskEvidence): (c: nat)
    requires Binary(e)
    ensures c < 16
  {
    8 * e.timeOfDay + 4 * e.timeSinceRest + 2 * e.pulse + e.eyelidMovement
  }

  /** The risk table's column for a fatigue state and the evidence. */
  function RiskColumn(fatigue: nat, e: RiskEvidence): (c: nat)
    requires fatigue < 2 && Binary(e)
    ensures c < 16
  {
    8 * fatigue + 4 * e.weather + 2 * e.traffic + e.roadType
  }

  /** The probability of fatigue given the evidence. */
  function FatigueProb(e: RiskEvidence): (p: real)
    requires Binary(e)
    ensures 0.05 <= p <= 0.95
  {
    FatigueColumnSums(FatigueColumn(e));
    FatigueCpt[1][FatigueColumn(e)]
  }

  /** `p * a + (1 - p) * b`: the probability of an event whose probability
      is `a` in a state of probability `p` and `b` otherwise. */
  function Mix(p: real, a: real, b: real): real
  {
    p * a + (1.0 - p) * b
  }

  /** A mixture lies between the bounds of its two components. */
  lemma MixBounds(p: real, a: real, b: real, lo: real, hi: real)
    requires 0.0 <= p <= 1.0 && lo <= a <= hi && lo <= b <= hi
    ensures lo <= Mix(p, a, b) <= hi
  {
    ProductNonNegative(p, a - lo);
    ProductNonNegative(p, hi - a);
    ProductNonNegative(1.0 - p, b - lo);
    ProductNonNegative(1.0 - p, hi - b);
    assert Mix(p, a, b) - lo == p * (a - lo) + (1.0 - p) * (b - lo);
    assert hi - Mix(p, a, b) == p * (hi - a) + (1.0 - p) * (hi - b);
  }

  /** `result.values[1]`: the probability of high risk, `Fatigue`
      marginalised out; `Speed` is observed but is not among the risk table's
      parents, so it does not enter. */
  function RiskProb(e: RiskEvidence): (r: real)
    requires Binary(e)
    ensures 0.05 <= r <= 0.95
  {
    var pF := FatigueProb(e);
    RiskColumnSums(RiskColumn(1, e));
    RiskColumnSums(RiskColumn(0, e));
    MixBounds(pF, RiskCpt[1][RiskColumn(1, e)], RiskCpt[1][RiskColumn(0, e)], 0.05, 0.95);
    Mix(pF, RiskCpt[1][RiskColumn(1, e)], RiskCpt[1][RiskColumn(0, e)])
  }

  /** The loss formula: a base loss of 0.5 scaled by `1 + 2 * risk`. */
  function RestPointsLoss(risk: real): (loss: real)
    ensures 0.0 <= risk <= 1.0 ==> 0.5 <= loss <= 1.5
    ensures loss - 0.5 == risk
  {
    0.5 * (1.0 + risk * 2.0)
  }

  /** The loss is strictly increasing in the risk. */
  lemma LossStrictlyIncreasing(r1: real, r2: real)
    requires r1 < r2
    ensures RestPointsLoss(r1) < RestPointsLoss(r2)
  {
  }

  /** The loss of one tick from the driver's readings. */
  function TickLoss(e: RiskEvidence): (loss: real)
    requires Binary(e)
    ensures 0.55 <= loss <= 1.45
  {
    RestPointsLoss(RiskProb(e))
  }

  // ---------------------------------------------------------------------
  // Monotonicity of the risk in the evidence.

  /** Every evidence value of `e` is at most that of `f`. */
  predicate AtMost(e: RiskEvidence, f: RiskEvidence)
  {
    && e.timeOfDay <= f.timeOfDay && e.timeSinceRest <= f.timeSinceRest
    && e.speed <= f.speed && e.pulse <= f.pulse && e.eyelidMovement <= f.eyelidMovement
    && e.weather <= f.weather && e.traffic <= f.traffic && e.roadType <= f.roadType
  }

  /** Row 1 of both tables in closed form over the four parent bits: a
      tenth per step of the three low parents, one fifth more when the first
      parent is set, and 0.95 instead of 1.0 when all four are; the risk
      table's first column is 0.05 instead of 0.1. */
  lemma RowsInClosedForm(hi: nat, a: nat, b: nat, c: nat)
    requires hi < 2 && a < 2 && b < 2 && c < 2
    ensures FatigueCpt[1][8 * hi + 4 * a + 2 * b + c] == RowValue(hi, 4 * a + 2 * b + c)
    ensures RiskCpt[1][8 * hi + 4 * a + 2 * b + c] ==
              if hi + a + b + c == 0 then 0.05 else RowValue(hi, 4 * a + 2 * b + c)
  {
    match (hi, a, b, c)
    case (0, 0, 0, 0) => case (0, 0, 0, 1) => case (0, 0, 1, 0) => case (0, 0, 1, 1) =>
    case (0, 1, 0, 0) => case (0, 1, 0, 1) => case (0, 1, 1, 0) => case (0, 1, 1, 1) =>
    case (1, 0, 0, 0) => case (1, 0, 0, 1) => case (1, 0, 1, 0) => case (1, 0, 1, 1) =>
    case (1, 1, 0, 0) => case (1, 1, 0, 1) => case (1, 1, 1, 0) => case (1, 1, 1, 1) =>
  }

  /** The closed form of row 1 of the fatigue table at the first parent
      `hi` and the low three parents' joint index `low`. */
  function RowValue(hi: nat, low: nat): real
  {
    if hi == 1 && low == 7 then 0.95 else 0.1 * (low as real + 1.0) + 0.2 * hi as real
  }

  /** Setting more of a table's four binary parents never lowers row 1. */
  lemma RowMonotone(hi1: nat, a1: nat, b1: nat, c1: nat, hi2: nat, a2: nat, b2: nat, c2: nat)
    requires hi1 <= hi2 < 2 && a1 <= a2 < 2 && b1 <= b2 < 2 && c1 <= c2 < 2
    ensures FatigueCpt[1][8 * hi1 + 4 * a1 + 2 * b1 + c1] <= FatigueCpt[1][8 * hi2 + 4 * a2 + 2 * b2 + c2]
    ensures RiskCpt[1][8 * hi1 + 4 * a1 + 2 * b1 + c1] <= RiskCpt[1][8 * hi2 + 4 * a2 + 2 * b2 + c2]
  {
    RowsInClosedForm(hi1, a1, b1, c1);
    RowsInClosedForm(hi2, a2, b2, c2);
  }

  /** With `Fatigue` set, the risk is higher than with it unset. */
  lemma FatigueRaisesRisk(e: RiskEvidence)
    requires Binary(e)
    ensures RiskCpt[1][RiskColumn(0, e)] <= RiskCpt[1][RiskColumn(1, e)]
  {
    RowMonotone(0, e.weather, e.traffic, e.roadType, 1, e.weather, e.traffic, e.roadType);
  }

  /** Raising any evidence value never lowers the fatigue probability or
      either risk entry it is mixed from. */
  lemma ComponentsMonotone(e: RiskEvidence, f: RiskEvidence)
    requires Binary(e) && Binary(f) && AtMost(e, f)
    ensures FatigueProb(e) <= FatigueProb(f)
    ensures RiskCpt[1][RiskColumn(1, e)] <= RiskCpt[1][RiskColumn(1, f)]
    ensures RiskCpt[1][RiskColumn(0, e)] <= RiskCpt[1][RiskColumn(0, f)]
  {
    RowMonotone(e.timeOfDay, e.timeSinceRest, e.pulse, e.eyelidMovement,
                f.timeOfDay, f.timeSinceRest, f.pulse, f.eyelidMovement);
    RowMonotone(1, e.weather, e.traffic, e.roadType, 1, f.weather, f.traffic, f.roadType);
    RowMonotone(0, e.weather, e.traffic, e.roadType, 0, f.weather, f.traffic, f.roadType);
  }

  /** Raising any evidence value never lowers the risk, and so never lowers
      the loss of a tick. */
  lemma RiskMonotone(e: RiskEvidence, f: RiskEvidence)
    requires Binary(e) && Binary(f) && AtMost(e, f)
    ensures RiskProb(e) <= RiskProb(f)
    ensures TickLoss(e) <= TickLoss(f)
  {
    ComponentsMonotone(e, f);
    FatigueRaisesRisk(e);
    var p, q := FatigueProb(e), FatigueProb(f);
    var a, b := RiskCpt[1][RiskColumn(1, e)], RiskCpt[1][RiskColumn(0, e)];
    var a', b' := RiskCpt[1][RiskColumn(1, f)], RiskCpt[1][RiskColumn(0, f)];
    MixMonotone(p, q, a, b, a', b');
    assert RiskProb(e) == Mix(p, a, b);
    assert RiskProb(f) == Mix(q, a', b');
  }

  /** A mixture grows with the weight of its larger component and with
      each component. */
  lemma MixMonotone(p: real, q: real, a: real, b: real, a': real, b': real)
    requires 0.0 <= p <= q <= 1.0 && b <= a && a <= a' && b <= b'
    ensures Mix(p, a, b) <= Mix(q, a', b')
  {
    ProductNonNegative(q - p, a - b);
    ProductNonNegative(q, a' - a);
    ProductNonNegative(1.0 - q, b' - b);
    assert Mix(q, a, b) - Mix(p, a, b) == (q - p) * (a - b);
    assert Mix(q, a', b') - Mix(q, a, b) == q * (a' - a) + (1.0 - q) * (b' - b);
  }

  lemma ProductNonNegative(x: real, y: real)
    requires x >= 0.0 && y >= 0.0
    ensures x * y >= 0.0
  {
  }

  // ---------------------------------------------------------------------
  // The rest budget.

  /** The rest points and the two counters of `run_simulation`. */
  datatype Budget = Budget(restPoints: real, falseAlarms: nat, totalPredictions: nat)

  /** One rest step: spend the tick's loss; below the threshold, rest to a
      full budget and count a prediction, a false alarm when the draw falls
      below 0.1. */
  function RestStep(b: Budget, loss: real, alarmDraw: real): (r: Budget)
    ensures b.restPoints - loss < RestThreshold ==>
              && r.restPoints == FullRestPoints
              && r.totalPredictions == b.totalPredictions + 1
              && r.falseAlarms == b.falseAlarms + (if alarmDraw < 0.1 then 1 else 0)
    ensures b.restPoints - loss >= RestThreshold ==>
              r == b.(restPoints := b.restPoints - loss)
  {
    var spent := b.restPoints - loss;
    if spent < RestThreshold then
      Budget(FullRestPoints, b.falseAlarms + (if alarmDraw < 0.1 then 1 else 0),
             b.totalPredictions + 1)
    else
      b.(restPoints := spent)
  }

  /** The budget stays between the threshold and a full budget, and there
      are never more false alarms than predictions. */
  predicate BudgetInvariant(b: Budget)
  {
    RestThreshold <= b.restPoints <= FullRestPoints && b.falseAlarms <= b.totalPredictions
  }

  /** The start of `run_simulation`. */
  const InitialBudget: Budget := Budget(FullRestPoints, 0, 0)

  /** A rest step with a non-negative loss keeps the invariant. */
  lemma RestStepKeepsInvariant(b: Budget, loss: real, alarmDraw: real)
    requires BudgetInvariant(b) && loss >= 0.0
    ensures BudgetInvariant(RestStep(b, loss, alarmDraw))
  {
  }

  /** The budget after a run of ticks with the given losses and draws. */
  function Run(b: Budget, losses: seq<real>, draws: seq<real>): (r: Budget)
    requires |losses| == |draws|
    ensures r.totalPredictions >= b.totalPredictions
    decreases |losses|
  {
    if losses == [] then b
    else Run(RestStep(b, losses[0], draws[0]), losses[1..], draws[1..])
  }

  function SumOf(s: seq<real>): real
  {
    if s == [] then 0.0 else s[0] + SumOf(s[1..])
  }

  predicate AllNonNegative(losses: seq<real>)
  {
    forall k :: 0 <= k < |losses| ==> losses[k] >= 0.0
  }

  /** From the initial budget, or any budget keeping the invariant, every
      run of non-negative losses keeps the invariant. */
  lemma {:induction false} RunKeepsInvariant(b: Budget, losses: seq<real>, draws: seq<real>)
    requires BudgetInvariant(b) && |losses| == |draws| && AllNonNegative(losses)
    ensures BudgetInvariant(Run(b, losses, draws))
    decreases |losses|
  {
    if losses != [] {
      RestStepKeepsInvariant(b, losses[0], draws[0]);
      assert AllNonNegative(losses[1..]) by {
        forall k | 0 <= k < |losses| - 1 ensures losses[1..][k] >= 0.0 {
          assert losses[1..][k] == losses[k + 1];
        }
      }
      RunKeepsInvariant(RestStep(b, losses[0], draws[0]), losses[1..], draws[1..]);
    }
  }

  /** A run with no rest spends exactly the sum of its losses. */
  lemma {:induction false} RunWithoutRest(b: Budget, losses: seq<real>, draws: seq<real>)
    requires |losses| == |draws|
    requires Run(b, losses, draws).totalPredictions == b.totalPredictions
    ensures Run(b, losses, draws).restPoints == b.restPoints - SumOf(losses)
    decreases |losses|
  {
    if losses != [] {
      var b' := RestStep(b, losses[0], draws[0]);
      assert Run(b, losses, draws) == Run(b', losses[1..], draws[1..]);
      assert b'.totalPredictions == b.totalPredictions;
      RunWithoutRest(b', losses[1..], draws[1..]);
    }
  }

  lemma {:induction false} SumOfAtLeast(losses: seq<real>, least: real)
    requires forall k :: 0 <= k < |losses| ==> losses[k] >= least
    ensures SumOf(losses) >= least * |losses| as real
    decreases |losses|
  {
    if losses != [] {
      assert forall k :: 0 <= k < |losses| - 1 ==> losses[1..][k] >= least;
      SumOfAtLeast(losses[1..], least);
    }
  }

  /** Every tick costs at least 0.5 points, so a driver starting within the
      invariant rests at the latest on the 141st tick: a run of more ticks
      always contains a rest. */
  lemma RestIsRecommendedWithinBudget(b: Budget, losses: seq<real>, draws: seq<real>)
    requires BudgetInvariant(b) && |losses| == |draws|
    requires forall k :: 0 <= k < |losses| ==> losses[k] >= 0.5
    requires |losses| > 140
    ensures Run(b, losses, draws).totalPredictions > b.totalPredictions
  {
    assert AllNonNegative(losses);
    RunKeepsInvariant(b, losses, draws);
    if Run(b, losses, draws).totalPredictions == b.totalPredictions {
      RunWithoutRest(b, losses, draws);
      SumOfAtLeast(losses, 0.5);
      assert false;
    }
  }

  // ---------------------------------------------------------------------
  // The system.

  /** `time_of_day` from the current hour. */
  function TimeOfDayAt(hour: int): (t: string)
    ensures t == "night" <==> hour < 6 || hour > 20
    ensures t == "night" || t == "day"
  {
    if hour < 6 || hour > 20 then "night" else "day"
  }

  /** The driver state of the rest-recommendation system. Times are seconds
      on the wall clock. */
  class DriverState {
    var restPoints: real
    var lastRestTime: real
    var currentSpeed: real
    var pulse: real
    var eyelidMovement: real   // 1.0 is normal, lower means more tired
    var temperature: real
    var weatherCondition: string
    var trafficDensity: string
    var timeOfDay: string
    var roadType: string

    /** The defaults; the default rest time is the clock when the module
        is loaded, `loadTime`. */
    constructor (loadTime: real)
      ensures restPoints == FullRestPoints && lastRestTime == loadTime
      ensures currentSpeed == 0.0 && pulse == 70.0 && eyelidMovement == 1.0
      ensures temperature == 36.6
      ensures weatherCondition == "clear" && trafficDensity == "low"
      ensures timeOfDay == "day" && roadType == "highway"
    {
      restPoints, lastRestTime := FullRestPoints, loadTime;
      currentSpeed, pulse, eyelidMovement := 0.0, 70.0, 1.0;
      temperature := 36.6;
      weatherCondition, trafficDensity := "clear", "low";
      timeOfDay, roadType := "day", "highway";
    }
  }

  class RestRecommendationSystem {
    const driverState: DriverState
    const restThreshold: real
    var falseAlarms: nat
    var totalPredictions: nat

    /** The budget and counters of the simulation loop. */
    function CurrentBudget(): Budget
      reads this, driverState
    {
      Budget(driverState.restPoints, falseAlarms, totalPredictions)
    }

    predicate Valid()
      reads this, driverState
    {
      restThreshold == RestThreshold && BudgetInvariant(CurrentBudget())
    }

    /** A fresh system, with the counters `run_simulation` starts from. */
    constructor (loadTime: real)
      ensures Valid() && CurrentBudget() == InitialBudget
      ensures fresh(driverState) && driverState.lastRestTime == loadTime
    {
      driverState := new DriverState(loadTime);
      restThreshold := RestThreshold;
      falseAlarms, totalPredictions := 0, 0;
    }

    /** The evidence for the current readings, the last rest having been
        at `restTime` and `now` being the wall clock. */
    function EvidenceSince(restTime: real, now: real): (e: RiskEvidence)
      reads driverState`timeOfDay, driverState`currentSpeed, driverState`pulse,
            driverState`eyelidMovement, driverState`weatherCondition,
            driverState`trafficDensity, driverState`roadType
      ensures Binary(e)
    {
      EvidenceOf(driverState.timeOfDay, now - restTime,
                 driverState.currentSpeed, driverState.pulse, driverState.eyelidMovement,
                 driverState.weatherCondition, driverState.trafficDensity, driverState.roadType)
    }

    /** The evidence for the current state, `now` being the wall clock. */
    function CurrentEvidence(now: real): (e: RiskEvidence)
      reads driverState
      ensures Binary(e)
    {
      EvidenceSince(driverState.lastRestTime, now)
    }

    /** `calculate_rest_points_loss` at the wall-clock time `now`. */
    function CalculateRestPointsLoss(now: real): (loss: real)
      reads driverState
      ensures 0.5 <= loss <= 1.5
      ensures loss == TickLoss(CurrentEvidence(now))
    {
      TickLoss(CurrentEvidence(now))
    }

    /** `simulate_sensor_data`: drift pulse, eyelid and speed by the given
        noise, clamped to their bands, and set the time of day from the
        current hour. */
    method SimulateSensorData(pulseNoise: real, eyelidNoise: real, speedNoise: real, hour: int)
      modifies driverState`pulse, driverState`eyelidMovement, driverState`currentSpeed,
               driverState`timeOfDay
      ensures driverState.pulse == Clamp(60.0, 100.0, old(driverState.pulse) + pulseNoise)
      ensures driverState.eyelidMovement == Clamp(0.3, 1.0, old(driverState.eyelidMovement) + eyelidNoise)
      ensures driverState.currentSpeed == Clamp(0.0, 130.0, old(driverState.currentSpeed) + speedNoise)
      ensures driverState.timeOfDay == TimeOfDayAt(hour)
      ensures 60.0 <= driverState.pulse <= 100.0
      ensures 0.3 <= driverState.eyelidMovement <= 1.0
      ensures 0.0 <= driverState.currentSpeed <= 130.0
    {
      driverState.pulse := driverState.pulse + pulseNoise;
      driverState.pulse := Max(60.0, Min(100.0, driverState.pulse));
      driverState.eyelidMovement := driverState.eyelidMovement + eyelidNoise;
      driverState.eyelidMovement := Max(0.3, Min(1.0, driverState.eyelidMovement));
      driverState.currentSpeed := driverState.currentSpeed + speedNoise;
      driverState.currentSpeed := Max(0.0, Min(130.0, driverState.currentSpeed));
      driverState.timeOfDay := if hour < 6 || hour > 20 then "night" else "day";
    }

    /** The budget part of one loop iteration: spend `loss`, and when the
        budget falls below the threshold rest at `now`, count a prediction
        and count a false alarm when `alarmDraw` says so. */
    method SpendRestPoints(loss: real, now: real, alarmDraw: real)
      requires Valid() && loss >= 0.0
      modifies this`falseAlarms, this`totalPredictions, driverState`restPoints, driverState`lastRestTime
      ensures Valid()
      ensures CurrentBudget() == RestStep(old(CurrentBudget()), loss, alarmDraw)
      ensures driverState.lastRestTime ==
                if old(driverState.restPoints) - loss < RestThreshold then now
                else old(driverState.lastRestTime)
    {
      RestStepKeepsInvariant(CurrentBudget(), loss, alarmDraw);
      driverState.restPoints := driverState.restPoints - loss;
      if driverState.restPoints < restThreshold {
        driverState.restPoints := FullRestPoints;
        driverState.lastRestTime := now;
        falseAlarms := falseAlarms + (if alarmDraw < 0.1 then 1 else 0);
        totalPredictions := totalPredictions + 1;
      }
    }

    /** One iteration of the simulation loop, rendering aside: update the
        sensors, spend the tick's loss and rest when the budget falls below
        the threshold. The clock reads `now` throughout the tick;
        `alarmDraw` is the draw that decides a false alarm. */
    method Tick(pulseNoise: real, eyelidNoise: real, speedNoise: real, hour: int,
                now: real, alarmDraw: real) returns (loss: real)
      requires Valid()
      modifies this, driverState
      ensures Valid()
      ensures 0.5 <= loss <= 1.5
      ensures loss == TickLoss(EvidenceSince(old(driverState.lastRestTime), now))
      ensures CurrentBudget() == RestStep(old(CurrentBudget()), loss, alarmDraw)
      ensures driverState.lastRestTime ==
                if old(driverState.restPoints) - loss < RestThreshold then now
                else old(driverState.lastRestTime)
      ensures driverState.pulse == Clamp(60.0, 100.0, old(driverState.pulse) + pulseNoise)
      ensures driverState.eyelidMovement == Clamp(0.3, 1.0, old(driverState.eyelidMovement) + eyelidNoise)
      ensures driverState.currentSpeed == Clamp(0.0, 130.0, old(driverState.currentSpeed) + speedNoise)
      ensures driverState.timeOfDay == TimeOfDayAt(hour)
      ensures driverState.temperature == old(driverState.temperature)
      ensures driverState.weatherCondition == old(driverState.weatherCondition)
      ensures driverState.trafficDensity == old(driverState.trafficDensity)
      ensures driverState.roadType == old(driverState.roadType)
    {
      SimulateSensorData(pulseNoise, eyelidNoise, speedNoise, hour);
      loss := CalculateRestPointsLoss(now);
      assert loss == TickLoss(EvidenceSince(old(driverState.lastRestTime), now));
      SpendRestPoints(loss, now, alarmDraw);
    }
  }
}

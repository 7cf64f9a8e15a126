# Fatigue detection and rest recommendation, in Dafny

This project models the decision logic of a driver-fatigue detection and
rest-recommendation system and proves properties of it. The system is made
of these parts:

- a **biometric scorer**, which turns six smartband and camera readings
  (heart rate, HRV, EDA, PERCLOS, blink duration, blink rate) into
  saturating per-signal scores and combines them with a fixed weight vector;
- a **fatigue evaluator**, which fills a 2 × 720 conditional probability
  table for `Fatigue` over seven evidence variables and encodes a driver
  state into evidence for that table;
- two **simulators**, one for clamped random drift of pulse, eyelid movement
  and speed, and one for sticky environment changes of weather, traffic
  and road type, each redrawn with a small probability per tick;
- the **rest-recommendation loop**, whose parts are:
  - a two-table network that turns the driver's state into an incident
    risk;
  - a loss of `0.5 * (1 + 2 * risk)` rest points per tick;
  - a reset to 100 points, with a prediction counted, when the budget
    falls below 30;
- the shared **driver state record** and its defaults.

The model inputs that stand in for the system's sources of randomness and
time are:

- every random draw (`random.uniform`, `random.random`, the uniform behind
  `random.choices`) is a parameter;
- wall-clock readings are parameters: `now` in seconds, the current
  `hour`, and the time the default rest time was taken;
- floats are exact reals.

Where the source mutates state (the table-filling loop, the two simulators
of driver readings, the rest loop), the model is a class or a method with
a `modifies` frame. Where the source computes values, the model is
functions, with lemmas about them.

Files, one module each:

- `clamping.dfy` (`Clamping`): `max(lo, min(hi, x))`.
- `driver_record.dfy` (`DriverRecord`): the `DriverState` record.
- `biometric_scoring.dfy` (`BiometricScoring`): `BiometricFatigueDetector`.
- `fatigue_network.dfy` (`FatigueNetwork`): `FatigueEvaluator`.
- `physiology_simulation.dfy` (`PhysiologySimulation`): `DriverSimulator`.
- `environment_model.dfy` (`EnvironmentModel`): `EnvironmentSimulator`.
- `rest_recommendation.dfy` (`RestRecommendation`): `sim.py`.

Modelling assumptions:

- **Fatigue query.** Every parent of `Fatigue` is observed in
  `evaluate_fatigue`, so exact inference of `P(Fatigue = 1 | evidence)` is
  the row-1 entry of the table at the column the evidence encodes. The
  query is modelled as that lookup.
- **Risk query.** In `sim.py` the query for `Risk` leaves `Fatigue`
  unobserved while all four of its parents are observed. Exact inference is
  then the mixture `pF * P(Risk=1 | Fatigue=1, …) + (1 - pF) * P(Risk=1 |
  Fatigue=0, …)`, where `pF` is the fatigue table's entry.
- **Column order.** In both networks, columns follow the evidence list with
  the first variable varying slowest.
- **Missing fields.** `modules/DriverState.py` does not declare `pulse` or
  `eyelid_movement`, yet the evaluator and the driver simulator read them.
  The record class carries both fields, and its constructor takes their
  initial values.

## Model

| member | source | states |
|---|---|---|
| Clamping.Clamp | modules/DriverSimulator.py:16 | `max(lo, min(hi, x))` lies in `[lo, hi]`; it is `x` inside the band, `lo` below it and `hi` above it |
| Clamping.ClampedStepWithin | modules/DriverSimulator.py:14-16 | from an in-band value, a clamped step of `d` lands between the start and the start plus `d` |
| Clamping.ClampMonotone | modules/DriverSimulator.py:16 | clamping preserves order |
| DriverRecord.DriverState.constructor | modules/DriverState.py:5-26 | every declared field holds its default |
| DriverRecord.DefaultsAreNormal | modules/DriverState.py:7-26 | the defaults are 100 rest points at tick 0; heart rate 75 is in [60,100]; HRV 50 is above 30; PERCLOS 0.15 is in [0,1] |
| BiometricScoring.HrFatigue | modules/BiometricFatigueDetector.py:23-27 | the score is in [0,1]; it is 0 iff hr ≥ 60, including exactly 60; it is 1 iff hr ≤ 45 |
| BiometricScoring.HrvFatigue | modules/BiometricFatigueDetector.py:29-33 | the score is in [0,1]; it is 0 iff hrv ≥ 30; it is 1 iff hrv ≤ 15 |
| BiometricScoring.EdaFatigue | modules/BiometricFatigueDetector.py:35-39 | the score is in [0,1]; it is 0 iff eda ≥ 3; it is 1 iff eda ≤ 1 |
| BiometricScoring.PerclosFatigue | modules/BiometricFatigueDetector.py:41-45 | the score is in [0,1]; it is 0 iff perclos ≤ 0.4; it is 1 iff perclos ≥ 0.6 |
| BiometricScoring.BlinkDurationFatigue | modules/BiometricFatigueDetector.py:47-51 | the score is in [0,1]; it is 0 iff duration ≤ 500; it is 1 iff duration ≥ 800 |
| BiometricScoring.BlinkRateFatigue | modules/BiometricFatigueDetector.py:53-57 | the score is in [0,1]; it is 0 iff rate ≤ 25; it is 1 iff rate ≥ 35 |
| BiometricScoring.ScoresMonotone | modules/BiometricFatigueDetector.py:23-57 | the HR, HRV and EDA scores are non-increasing in their reading; the PERCLOS, blink-duration and blink-rate scores are non-decreasing |
| BiometricScoring.WeightsNormalised | modules/BiometricFatigueDetector.py:14-21 | each of the six weights is positive; each metric appears once; the weights sum to exactly 1 |
| BiometricScoring.WeightedSumBounds | modules/BiometricFatigueDetector.py:74-75 | for scores in [0,1], the weighted sum lies between 0 and the total weight; it is 0 iff every score is 0, and equals the total weight iff every score is 1 |
| BiometricScoring.WeightedSumMonotone | modules/BiometricFatigueDetector.py:74-75 | raising scores pointwise never lowers the weighted sum |
| BiometricScoring.WeightedSumUpdate | modules/BiometricFatigueDetector.py:74-75 | changing one metric's score to `v` changes the sum by exactly its weight times `v` minus the old score |
| BiometricScoring.FatigueScores | modules/BiometricFatigueDetector.py:64-71 | the score dictionary has every metric, each scored by its own function of its own reading |
| BiometricScoring.ScoresCover | modules/BiometricFatigueDetector.py:64-71 | the dictionary literal has every metric, each scored by its own function of its own reading |
| BiometricScoring.ScoresCharacterise | modules/BiometricFatigueDetector.py:64-71 | all six scores are 0 iff every reading is on the rested side of its threshold; all are 1 iff every reading is saturated |
| BiometricScoring.ScoresInRange | modules/BiometricFatigueDetector.py:64-71 | every entry of the score dictionary is in [0,1] |
| BiometricScoring.DetectFatigue | modules/BiometricFatigueDetector.py:59-77 | the fatigue level is in [0,1], as documented; it is 0 iff every reading is rested and 1 iff every reading is saturated |
| BiometricScoring.TotalMonotoneInEachScore | modules/BiometricFatigueDetector.py:74-75 | with the other signals held, raising one signal's score raises the total by its weight times the increase, and never lowers it |
| BiometricScoring.DefaultStateScoresZero | modules/DriverState.py:19-26 | the default record scores exactly 0 |
| FatigueNetwork.ColumnsMatchCardinalities | modules/FatigueEvaluator.py:52-77 | the product of the evidence cardinalities [2,2,2,2,5,3,3] is the table width 720 |
| FatigueNetwork.InDomainMatchesCardinalities | modules/FatigueEvaluator.py:77 | an evidence tuple is in range exactly when each component is below its declared cardinality |
| FatigueNetwork.Encode | modules/FatigueEvaluator.py:72-77 | the column of an in-range evidence tuple is below 720 |
| FatigueNetwork.DecodeAsWritten | modules/FatigueEvaluator.py:57-63 | the loop's digits, as written, are each within their cardinality |
| FatigueNetwork.Decode | modules/FatigueEvaluator.py:57-63 | the mixed-radix digits of a column, road type fastest, are each within their cardinality |
| FatigueNetwork.DecodeThenEncode | modules/FatigueEvaluator.py:54-63 | recomposing the digits of any column `i < 720` gives back `i` |
| FatigueNetwork.EncodeThenDecode | modules/FatigueEvaluator.py:54-77 | decoding the column of any in-range tuple gives back the tuple, so decoding is a bijection |
| FatigueNetwork.DecodeAsWrittenNotInjective | modules/FatigueEvaluator.py:61-62 | the loop's digits, as written, give columns 0 and 3 the same tuple; column 3 belongs to moderate traffic |
| FatigueNetwork.FatigueProb | modules/FatigueEvaluator.py:55-67 | the capped factor sum lies in [0.05, 1] |
| FatigueNetwork.FactorListsNonDecreasing | modules/FatigueEvaluator.py:57-63 | every factor list is non-decreasing |
| FatigueNetwork.FactorsBounded | modules/FatigueEvaluator.py:55-67 | the factor sum lies in [0.05, 1.55] |
| FatigueNetwork.CapIsReachable | modules/FatigueEvaluator.py:66-67 | the all-adverse tuple sums to 1.55, so the `min(1, …)` cap is reached |
| FatigueNetwork.AllBenignIsColumnZero | modules/FatigueEvaluator.py:54-63 | the all-benign tuple is column 0, and column 0 decodes to it |
| FatigueNetwork.AllBenignProbability | modules/FatigueEvaluator.py:55-69 | the all-benign tuple has fatigue probability exactly 0.05 |
| FatigueNetwork.FatigueProbMonotone | modules/FatigueEvaluator.py:57-67 | raising any evidence components never lowers the fatigue probability |
| FatigueNetwork.BuildFatigueTableAsWritten | modules/FatigueEvaluator.py:52-70 | the loop as written fills a 2 × 720 table; row 1 holds the capped factor sum of the digits as written, and row 0 its complement |
| FatigueNetwork.AsWrittenLookupNotMonotone | modules/FatigueEvaluator.py:61-62 | looked up at their encoded columns, the table as written gives rain/medium/highway 0.35 and rain/high/highway 0.15; the factor sums give 0.25 and 0.45 |
| FatigueNetwork.BuildFatigueTable | modules/FatigueEvaluator.py:52-70 | the corrected loop fills column `Encode(e)` with the distribution of `e`, for every in-range `e` |
| FatigueNetwork.IndexDictionariesBijective | modules/FatigueEvaluator.py:90-106 | each dictionary maps its k-th key to state k |
| FatigueNetwork.EncodeEvidence | modules/FatigueEvaluator.py:84-107 | the encoding succeeds iff all three strings are dictionary keys, else it is a KeyError for the first unknown one; night, hours > 2, pulse > 85 and eyelid < 0.6 each give 1 exactly when strict; the result is in range |
| FatigueNetwork.DefaultStateEncodes | modules/DriverState.py:13-16 | the default environment strings are encodable, and with calm readings they encode to column 0 |
| FatigueNetwork.SimulatorKeysAreEncodable | modules/EnvironmentSimulator.py:7-25 | the environment simulator's keys are exactly the evaluator's dictionary keys |
| FatigueNetwork.FatigueEvaluator.constructor | modules/FatigueEvaluator.py:8-9 | the evaluator's table, filled by the corrected loop, holds the fatigue distribution of every column |
| FatigueNetwork.FatigueEvaluator.ColumnsAreDistributions | modules/FatigueEvaluator.py:66-70 | every column's two entries sum to 1; row 0 is in [0,1] and row 1 in [0.05,1] |
| FatigueNetwork.FatigueEvaluator.EvaluateFatigue | modules/FatigueEvaluator.py:84-111 | over the corrected table, the result is the fatigue probability of the encoded evidence, in [0.05,1], or the encoder's KeyError |
| PhysiologySimulation.DriverSimulator.constructor | modules/DriverSimulator.py:7-10 | the variances are 2.0, 0.05 and 5.0 |
| PhysiologySimulation.DriverSimulator.SimulatePhysiological | modules/DriverSimulator.py:12-33 | only pulse, eyelid and speed change, by clamped addition of the noise, and the same record is returned; they end in [60,100], [0.3,1] and [0,130]; with in-range noise, an in-band pulse moves by at most 2 and an in-band eyelid by −0.05 to +0.03; a speed in [0,50) never drops |
| EnvironmentModel.TablesAreDistributions | modules/EnvironmentSimulator.py:5-25 | the three weight tables are positive with distinct keys, and each sums to 1; the change probabilities lie strictly in (0,1) |
| EnvironmentModel.Accumulate | modules/EnvironmentSimulator.py:29-32 | there is one running sum per weight |
| EnvironmentModel.AccumulateEndsAtSum | modules/EnvironmentSimulator.py:29-32 | the last running sum is the total weight |
| EnvironmentModel.AccumulateIncreasing | modules/EnvironmentSimulator.py:29-32 | the running sums of positive weights strictly increase |
| EnvironmentModel.BisectRight | modules/EnvironmentSimulator.py:29-32 | the binary search result splits `[lo, hi)` into entries at most `x` and entries above `x` |
| EnvironmentModel.PickAt | modules/EnvironmentSimulator.py:29-32 | the picked index is a valid key index |
| EnvironmentModel.PickAtInterval | modules/EnvironmentSimulator.py:29-32 | index `k` is picked at point `x` exactly when `x` lies in `[Sum(w[..k]), Sum(w[..k+1]))`; the end intervals are open |
| EnvironmentModel.ChoiceIndex | modules/EnvironmentSimulator.py:29-32 | the draw picks a valid key index |
| EnvironmentModel.ChoiceIndexInterval | modules/EnvironmentSimulator.py:29-32 | for a table summing to 1, key `k` is drawn exactly when `u` falls in its interval of width `weights[k]` |
| EnvironmentModel.Choice | modules/EnvironmentSimulator.py:29-32 | the draw is a key of the table |
| EnvironmentModel.Redraw | modules/EnvironmentSimulator.py:27-33 | the value is unchanged if the draw is at least the change probability, and a table key otherwise |
| EnvironmentModel.SimulateWeather | modules/EnvironmentSimulator.py:27-33 | the weather is unchanged unless the draw is below 1/36, and is then a weather key |
| EnvironmentModel.SimulateRoadType | modules/EnvironmentSimulator.py:35-41 | the road type is unchanged unless the draw is below 1/12, and is then a road key |
| EnvironmentModel.SimulateTraffic | modules/EnvironmentSimulator.py:43-49 | the traffic is unchanged unless the draw is below 1/12, and is then a traffic key |
| EnvironmentModel.TransitionsStayInTables | modules/EnvironmentSimulator.py:27-49 | from table keys, every transition stays within the tables |
| EnvironmentModel.WeatherRedrawByDraw | modules/EnvironmentSimulator.py:7-32 | a weather redraw is "clear" iff the draw is below 0.5, and "bad" iff it is at least 0.8 |
| RestRecommendation.TablesAreDistributions | sim.py:71-91 | every column of both tables sums to 1, with row 1 in [0.05, 0.95] |
| RestRecommendation.TimeSinceRestFlag | sim.py:111 | the corrected flag is 1 iff more than 7200 seconds have elapsed |
| RestRecommendation.TimeSinceRestFlagAsWritten | sim.py:111 | the flag as written, from the seconds-within-the-day part, is binary |
| RestRecommendation.TimeSinceRestWrapsAtOneDay | sim.py:111 | 90000 s after a rest the flag as written is 0, while the corrected flag is 1 |
| RestRecommendation.TimeSinceRestTruncatesSeconds | sim.py:111 | 7200.5 s after a rest the flag as written is 0, since `seconds` drops the fraction, while the corrected flag is 1 |
| RestRecommendation.TimeSinceRestFlagsAgreeWithinADay | sim.py:111 | for whole seconds below one day, the two flags agree |
| RestRecommendation.EvidenceOf | sim.py:109-118 | each evidence value is 1 exactly when its condition holds: night, > 7200 s by the corrected flag, speed > 100, pulse > 85, eyelid < 0.7, weather "bad", traffic "high", road "local" |
| RestRecommendation.FatigueColumn | sim.py:78-83 | the fatigue column of binary evidence is below 16 |
| RestRecommendation.RiskColumn | sim.py:93-98 | the risk column is below 16 |
| RestRecommendation.FatigueProb | sim.py:71-83 | the fatigue probability is in [0.05, 0.95] |
| RestRecommendation.RiskProb | sim.py:121-122 | the risk, with fatigue marginalised out, is in [0.05, 0.95] |
| RestRecommendation.RestPointsLoss | sim.py:124-127 | for risk in [0,1] the loss is in [0.5,1.5]; the loss exceeds the base 0.5 by exactly the risk |
| RestRecommendation.LossStrictlyIncreasing | sim.py:124-127 | the loss is strictly increasing in the risk |
| RestRecommendation.TickLoss | sim.py:107-127 | a tick's loss is in [0.55, 1.45] |
| RestRecommendation.RowsInClosedForm | sim.py:71-91 | row 1 of both tables, at four parent bits, equals its closed form |
| RestRecommendation.RowMonotone | sim.py:71-91 | setting more parent bits never lowers row 1 of either table |
| RestRecommendation.FatigueRaisesRisk | sim.py:86-91 | with the other parents fixed, a fatigued driver has at least the risk of a rested one |
| RestRecommendation.ComponentsMonotone | sim.py:71-98 | raising evidence never lowers the fatigue probability or either risk entry |
| RestRecommendation.RiskMonotone | sim.py:107-127 | raising any evidence value never lowers the risk or the loss |
| RestRecommendation.RestStep | sim.py:167-177 | below 30 after the loss, the budget becomes exactly 100, predictions rise by 1, and false alarms rise by 1 iff the draw is below 0.1; otherwise the budget drops by the loss and the counters stay |
| RestRecommendation.RestStepKeepsInvariant | sim.py:167-177 | a step with a non-negative loss keeps the budget in [30,100] and false alarms at most predictions |
| RestRecommendation.Run | sim.py:159-177 | the prediction count never decreases over a run |
| RestRecommendation.RunKeepsInvariant | sim.py:156-177 | every run of non-negative losses from a budget meeting the invariant keeps it |
| RestRecommendation.RunWithoutRest | sim.py:167-170 | a run with no rest spends exactly the sum of its losses |
| RestRecommendation.RestIsRecommendedWithinBudget | sim.py:166-174 | with losses ≥ 0.5, any run of more than 140 ticks contains a rest |
| RestRecommendation.TimeOfDayAt | sim.py:144-145 | the time of day is "night" iff hour < 6 or hour > 20, and "day" otherwise |
| RestRecommendation.DriverState.constructor | sim.py:14-25 | every field holds its default; the last rest time is the load time |
| RestRecommendation.RestRecommendationSystem.constructor | sim.py:29-32 | the system starts with 100 points, no alarms or predictions, and threshold 30 |
| RestRecommendation.RestRecommendationSystem.EvidenceSince | sim.py:109-118 | the evidence of the current readings, reading only the fields the evidence uses, is binary |
| RestRecommendation.RestRecommendationSystem.CurrentEvidence | sim.py:109-118 | the state's evidence is binary |
| RestRecommendation.RestRecommendationSystem.CalculateRestPointsLoss | sim.py:107-127 | the loss is in [0.5,1.5] and is the loss of the state's evidence |
| RestRecommendation.RestRecommendationSystem.SimulateSensorData | sim.py:129-145 | pulse, eyelid and speed become clamped sums in [60,100], [0.3,1] and [0,130]; the time of day follows the hour |
| RestRecommendation.RestRecommendationSystem.SpendRestPoints | sim.py:166-177 | only the rest points, the rest time and the counters change; the budget takes one rest step with the loss; the rest time becomes `now` exactly on a rest; the invariant is kept |
| RestRecommendation.RestRecommendationSystem.Tick | sim.py:164-177 | the loss is the loss of the updated readings since the old rest time; the budget and counters take one rest step with it; the rest time resets to `now` exactly on a rest; the sensors update; temperature and the environment are unchanged; the invariant is kept |

## Left out

- Rendering and the event loop (`sim.py:148-205`): the window, the drawing
  and the frame pacing are user interface. This includes the displayed
  accuracy text.
- Threading and the stop flag (`sim.py:207-212`): this is concurrency. The
  loop is modelled as single ticks (`Tick`) and as runs of ticks (`Run`).
- The network library: network construction, table objects and
  variable elimination are foreign code. Only the tables' contents and the
  two queries are modelled, as the assumptions above state. The parents'
  prior tables do not enter either query, so they are not modelled.
- `Speed` in the risk query: the edge list makes `Speed` a parent of
  `Risk`, but the `Risk` table lists only `Fatigue`, `Weather`, `Traffic`
  and `RoadType`. The model follows the table, so the `Speed` evidence is
  computed and then unused. How the library treats the mismatched parents
  is outside the model.
- The `print` of the query result (`modules/FatigueEvaluator.py:110`):
  output only.
- Random draws: these are parameters. The ranges `random.uniform` draws
  from are the predicate `NoiseInRange`, which the driver simulator's
  bounds assume. The draw behind `random.choices` is modelled through
  Python's running sums and bisection.
- The clock: `now` is one parameter per tick, used for both clock reads in
  that tick. The import-time default of `last_rest_time` is the
  constructor's `loadTime`.
- `temperature`: the `sim.py` record carries it and `Tick` leaves it
  unchanged, but no evidence, loss or decision reads it.
- `plot_model.py`: rendering of the network graph.
- Floating-point rounding: all arithmetic is on exact reals, so for example
  the weight sum is exactly 1.
- FatigueNetwork.FatigueEvaluator.constructor: builds the evaluator's
  table with the corrected loop (`BuildFatigueTable`). The source's
  constructor fills column `i` from the digits as written, with
  `FatigueProb(DecodeAsWritten(i))` in row 1; see Findings.
- FatigueNetwork.FatigueEvaluator.EvaluateFatigue: returns
  `FatigueProb(e)` for the encoded evidence `e`. The source returns the
  as-written table's entry, `FatigueProb(DecodeAsWritten(Encode(e)))`. For
  rain, medium traffic and highway that is 0.35 rather than 0.25
  (`AsWrittenLookupNotMonotone`).
- RestRecommendation.EvidenceOf: its time-since-rest bit is the corrected
  flag, `elapsed > 7200`, not the `seconds` flag of `sim.py:111`
  (`TimeSinceRestFlagAsWritten`). The two differ from one day after a rest
  on, and between 7200 and 7201 seconds. `EvidenceSince`, `CurrentEvidence`,
  `CalculateRestPointsLoss`, `Tick` and every lemma about `TickLoss`
  inherit the corrected flag.
- EnvironmentModel.ChoiceIndexInterval: it is stated only for weight lists
  that sum to 1, which all three tables do. For other totals the interval
  property is `PickAtInterval` at the point `u * total`. That instance is
  not proved with the product left symbolic.

## Findings

| source | as written | input that shows it | evidently intended | confidence | as-written member | corrected member |
|---|---|---|---|---|---|---|
| modules/FatigueEvaluator.py:61-62 | the loop decodes the weather digit as `(i // 15) % 5` and the traffic digit as `(i // 5) % 3` | columns 0 and 3 both decode to the all-benign tuple (`DecodeAsWrittenNotInjective`). Looked up at its encoded column 12, rain/medium/highway reads 0.35 instead of 0.25, and rain/high/highway at column 15 reads 0.15 instead of 0.45 (`AsWrittenLookupNotMonotone`) | `(i // 9) % 5` and `(i // 3) % 3`, the digits of the declared evidence order [2,2,2,2,5,3,3] with road type fastest; the evaluator class is built on this corrected table | high; not executed | FatigueNetwork.BuildFatigueTableAsWritten | FatigueNetwork.BuildFatigueTable |
| sim.py:111 | the two-hour flag compares the `seconds` attribute of the elapsed `timedelta`, which holds only the whole seconds below a whole day | 90000 s (25 h) after a rest, `seconds` is 3600 and the flag is 0 (`TimeSinceRestWrapsAtOneDay`); 7200.5 s after a rest, `seconds` is 7200 and the flag is 0 (`TimeSinceRestTruncatesSeconds`) | the total elapsed seconds exceed 7200 (`total_seconds()`) | medium; not executed | RestRecommendation.TimeSinceRestFlagAsWritten | RestRecommendation.TimeSinceRestFlag |

/// The fatigue evaluator: the 2 x 720 conditional probability table of
/// `Fatigue` given its seven observed parents, and the encoding of a driver
/// state into evidence for that table.
///
/// Modelling assumption: every parent of `Fatigue` is observed in the
/// query, so exact inference for `P(Fatigue = 1 | evidence)` is the entry in
/// row 1 of the table at the column the evidence encodes. The query is
/// modelled as that lookup; the parents' prior tables do not affect it.
module FatigueNetwork {
  import opened Clamping
  import opened DriverRecord
  import EnvironmentModel

  /** A dictionary lookup: its value, or the `KeyError` naming the key. */
  datatype Lookup<T> = Ok(value: T) | KeyError(key: string)

  /** One state index per parent of `Fatigue`, in the table's evidence order. */
  datatype Evidence = Evidence(
    timeOfDay: nat, timeSinceRest: nat, pulse: nat, eyelidMovement: nat,
    weather: nat, traffic: nat, roadType: nat)

  /** The declared cardinalities of the seven evidence variables. */
  const EvidenceCard: seq<nat> := [2, 2, 2, 2, 5, 3, 3]

  /** Number of columns of the fatigue table. */
  const Columns: nat := 720

  /** Product of a list of cardinalities. */
  function Product(cards: seq<nat>): nat
  {
    if cards == [] then 1 else cards[0] * Product(cards[1..])
  }

  /** The table has one column per joint evidence state. */
  lemma ColumnsMatchCardinalities()
    ensures Product(EvidenceCard) == Columns
  {
    assert EvidenceCard[1..][1..][1..][1..][1..][1..][1..] == [];
  }

  /** Every component lies within its declared cardinality. */
  predicate InDomain(e: Evidence)
  {
    && e.timeOfDay < 2 && e.timeSinceRest < 2 && e.pulse < 2 && e.eyelidMovement < 2
    && e.weather < 5 && e.traffic < 3 && e.roadType < 3
  }

  /** `InDomain` is the bound the declared cardinalities give. */
  lemma InDomainMatchesCardinalities(e: Evidence)
    ensures InDomain(e) <==>
              && e.timeOfDay < EvidenceCard[0] && e.timeSinceRest < EvidenceCard[1]
              && e.pulse < EvidenceCard[2] && e.eyelidMovement < EvidenceCard[3]
              && e.weather < EvidenceCard[4] && e.traffic < EvidenceCard[5]
              && e.roadType < EvidenceCard[6]
  {
  }

  /** The column of an evidence tuple in the table's column order: the
      first evidence variable varies slowest and the road type fastest. */
  function Encode(e: Evidence): (i: nat)
    requires InDomain(e)
    ensures i < Columns
  {
    360 * e.timeOfDay + 180 * e.timeSinceRest + 90 * e.pulse + 45 * e.eyelidMovement
      + 9 * e.weather + 3 * e.traffic + e.roadType
  }

  /** The digits of column `i` as `setup_bayesian_network` computes them:
      weather from `i // 15` and traffic from `i // 5`. */
  function DecodeAsWritten(i: nat): (e: Evidence)
    requires i < Columns
    ensures InDomain(e)
  {
    Evidence(i / 360, (i / 180) % 2, (i / 90) % 2, (i / 45) % 2, (i / 15) % 5, (i / 5) % 3, i % 3)
  }

  /** Column `i` as mixed-radix digits in the radices (2, 2, 2, 2, 5, 3, 3),
      road type fastest: weather from `i // 9` and traffic from `i // 3`. */
  function Decode(i: nat): (e: Evidence)
    requires i < Columns
    ensures InDomain(e)
  {
    Evidence(i / 360, (i / 180) % 2, (i / 90) % 2, (i / 45) % 2, (i / 9) % 5, (i / 3) % 3, i % 3)
  }

  /** Recomposing the digits of a column gives the column back. */
  lemma DecodeThenEncode(i: nat)
    requires i < Columns
    ensures Encode(Decode(i)) == i
  {
    var r, q1 := i % 3, i / 3;
    var t, q2 := q1 % 3, q1 / 3;
    DivModUnique(i, 9, q2, 3 * t + r);
    var w, q3 := q2 % 5, q2 / 5;
    DivModUnique(i, 45, q3, 9 * w + 3 * t + r);
    var m, q4 := q3 % 2, q3 / 2;
    DivModUnique(i, 90, q4, 45 * m + 9 * w + 3 * t + r);
    var c, q5 := q4 % 2, q4 / 2;
    DivModUnique(i, 180, q5, 90 * c + 45 * m + 9 * w + 3 * t + r);
    var b, q6 := q5 % 2, q5 / 2;
    DivModUnique(i, 360, q6, 180 * b + 90 * c + 45 * m + 9 * w + 3 * t + r);
  }

  /** Decoding the column of an evidence tuple gives the tuple back, so
      `Decode` and `Encode` are inverse bijections between `[0, 720)` and the
      in-domain tuples. */
  lemma EncodeThenDecode(e: Evidence)
    requires InDomain(e)
    ensures Decode(Encode(e)) == e
  {
    var i := Encode(e);
    var a, b, c, m := e.timeOfDay, e.timeSinceRest, e.pulse, e.eyelidMovement;
    var w, t, r := e.weather, e.traffic, e.roadType;
    DivModUnique(i, 3, 120 * a + 60 * b + 30 * c + 15 * m + 3 * w + t, r);
    DigitOf(i, 3, 3, 40 * a + 20 * b + 10 * c + 5 * m + w, t, r);
    DigitOf(i, 9, 5, 8 * a + 4 * b + 2 * c + m, w, 3 * t + r);
    DigitOf(i, 45, 2, 4 * a + 2 * b + c, m, 9 * w + 3 * t + r);
    DigitOf(i, 90, 2, 2 * a + b, c, 45 * m + 9 * w + 3 * t + r);
    DigitOf(i, 180, 2, a, b, 90 * c + 45 * m + 9 * w + 3 * t + r);
    DivModUnique(i, 360, a, 180 * b + 90 * c + 45 * m + 9 * w + 3 * t + r);
  }

  /** Euclidean division has one quotient and one remainder. */
  lemma DivModUnique(n: int, d: int, q: int, r: int)
    requires d > 0 && 0 <= r < d && n == q * d + r
    ensures n / d == q && n % d == r
  {
    var q', r' := n / d, n % d;
    assert n == q' * d + r';
    assert (q - q') * d == r' - r;
    if q > q' {
      MulAtLeast(q - q', d);
      assert false;
    } else if q < q' {
      MulAtLeast(q' - q, d);
      assert false;
    }
  }

  lemma MulAtLeast(k: int, d: int)
    requires k >= 1 && d > 0
    ensures k * d >= d
  {
    assert (k - 1) * d >= 0;
  }

  /** The digit of radix `m` at place value `d`. */
  lemma DigitOf(i: int, d: int, m: int, q: int, x: int, y: int)
    requires d > 0 && m > 0 && 0 <= x < m && 0 <= y < d
    requires i == (q * m + x) * d + y
    ensures (i / d) % m == x
  {
    DivModUnique(i, d, q * m + x, y);
    DivModUnique(q * m + x, m, q, x);
  }

  /** The decoding as written is not a bijection: columns 0 and 3 receive
      the same digits, so the column of evidence with moderate traffic on a
      highway in clear weather is filled as if traffic were low. */
  lemma DecodeAsWrittenNotInjective()
    ensures DecodeAsWritten(0) == DecodeAsWritten(3)
    ensures Decode(3) == Evidence(0, 0, 0, 0, 0, 1, 0) != DecodeAsWritten(3)
  {
  }

  // Factor lists of the table's construction, indexed by evidence state.
  const BaseProb: real := 0.05
  const TimeOfDayFactors: seq<real> := [0.0, 0.1]
  const TimeSinceRestFactors: seq<real> := [0.0, 0.25]
  const PulseFactors: seq<real> := [0.0, 0.1]
  const EyelidFactors: seq<real> := [0.0, 0.15]
  const WeatherFactors: seq<real> := [0.0, 0.1, 0.25, 0.3, 0.4]
  const TrafficFactors: seq<real> := [0.0, 0.1, 0.3]
  const RoadTypeFactors: seq<real> := [0.0, 0.05, 0.2]

  /** The base probability plus one factor per evidence component. */
  function FactorSum(e: Evidence): real
    requires InDomain(e)
  {
    BaseProb + TimeOfDayFactors[e.timeOfDay] + TimeSinceRestFactors[e.timeSinceRest]
      + PulseFactors[e.pulse] + EyelidFactors[e.eyelidMovement] + WeatherFactors[e.weather]
      + TrafficFactors[e.traffic] + RoadTypeFactors[e.roadType]
  }

  /** `P(Fatigue = 1 | e)`: the factor sum capped at 1. It never falls below
      the base probability 0.05. */
  function FatigueProb(e: Evidence): (p: real)
    requires InDomain(e)
    ensures BaseProb <= p <= 1.0
  {
    FactorsBounded(e);
    Min(1.0, FactorSum(e))
  }

  predicate NonDecreasing(s: seq<real>)
  {
    forall i, j :: 0 <= i <= j < |s| ==> s[i] <= s[j]
  }

  /** Every factor list is non-decreasing and starts at 0. */
  lemma FactorListsNonDecreasing()
    ensures NonDecreasing(TimeOfDayFactors) && NonDecreasing(TimeSinceRestFactors)
    ensures NonDecreasing(PulseFactors) && NonDecreasing(EyelidFactors)
    ensures NonDecreasing(WeatherFactors) && NonDecreasing(TrafficFactors)
    ensures NonDecreasing(RoadTypeFactors)
  {
  }

  /** Each factor lies between the list's first and last entries, so the
      factor sum lies between 0.05 and 1.55. */
  lemma FactorsBounded(e: Evidence)
    requires InDomain(e)
    ensures BaseProb <= FactorSum(e) <= 1.55
  {
    FactorListsNonDecreasing();
  }

  /** The `min(1, ...)` cap is reached: the all-adverse tuple sums to 1.55. */
  lemma CapIsReachable()
    ensures InDomain(Evidence(1, 1, 1, 1, 4, 2, 2))
    ensures FactorSum(Evidence(1, 1, 1, 1, 4, 2, 2)) == 1.55
    ensures FatigueProb(Evidence(1, 1, 1, 1, 4, 2, 2)) == 1.0
  {
  }

  /** The all-benign tuple is column 0 ... */
  lemma AllBenignIsColumnZero()
    ensures InDomain(Evidence(0, 0, 0, 0, 0, 0, 0))
    ensures Encode(Evidence(0, 0, 0, 0, 0, 0, 0)) == 0
    ensures Decode(0) == Evidence(0, 0, 0, 0, 0, 0, 0)
  {
    EncodeThenDecode(Evidence(0, 0, 0, 0, 0, 0, 0));
  }

  /** ... and its fatigue probability is exactly the base 0.05. */
  lemma AllBenignProbability()
    ensures FatigueProb(Evidence(0, 0, 0, 0, 0, 0, 0)) == BaseProb
  {
  }

  /** Componentwise order on evidence tuples. */
  predicate AtMost(e: Evidence, f: Evidence)
  {
    && e.timeOfDay <= f.timeOfDay && e.timeSinceRest <= f.timeSinceRest
    && e.pulse <= f.pulse && e.eyelidMovement <= f.eyelidMovement
    && e.weather <= f.weather && e.traffic <= f.traffic && e.roadType <= f.roadType
  }

  /** Raising any evidence components never lowers the fatigue probability. */
  lemma FatigueProbMonotone(e: Evidence, f: Evidence)
    requires InDomain(e) && InDomain(f) && AtMost(e, f)
    ensures FatigueProb(e) <= FatigueProb(f)
  {
    FactorListsNonDecreasing();
    assert FactorSum(e) <= FactorSum(f);
  }

  /** `setup_bayesian_network`'s loop as written: fill a zeroed 2 x 720
      table column by column, row 1 with the capped factor sum of the
      column's digits and row 0 with its complement. */
  method BuildFatigueTableAsWritten() returns (probs: array2<real>)
    ensures probs.Length0 == 2 && probs.Length1 == Columns
    ensures forall i :: 0 <= i < Columns ==>
              && probs[1, i] == FatigueProb(DecodeAsWritten(i))
              && probs[0, i] == 1.0 - FatigueProb(DecodeAsWritten(i))
  {
    probs := new real[2, 720];
    for i := 0 to 720
      invariant forall j :: 0 <= j < i ==>
                  && probs[1, j] == FatigueProb(DecodeAsWritten(j))
                  && probs[0, j] == 1.0 - FatigueProb(DecodeAsWritten(j))
    {
      var baseProb := 0.05;
      var timeOfDayFactor := if i / 360 != 0 then 0.1 else 0.0;
      var timeSinceRestFactor := if (i / 180) % 2 != 0 then 0.25 else 0.0;
      var pulseFactor := if (i / 90) % 2 != 0 then 0.1 else 0.0;
      var eyelidFactor := if (i / 45) % 2 != 0 then 0.15 else 0.0;
      var weatherFactor := [0.0, 0.1, 0.25, 0.3, 0.4][(i / 15) % 5];
      var trafficFactor := [0.0, 0.1, 0.3][(i / 5) % 3];
      var roadTypeFactor := [0.0, 0.05, 0.2][i % 3];

      ghost var e := DecodeAsWritten(i);
      assert timeOfDayFactor == TimeOfDayFactors[e.timeOfDay];
      assert timeSinceRestFactor == TimeSinceRestFactors[e.timeSinceRest];
      assert pulseFactor == PulseFactors[e.pulse];
      assert eyelidFactor == EyelidFactors[e.eyelidMovement];
      assert weatherFactor == WeatherFactors[e.weather];
      assert trafficFactor == TrafficFactors[e.traffic];
      assert roadTypeFactor == RoadTypeFactors[e.roadType];
      var fatigueProb := Min(1.0, baseProb + timeOfDayFactor + timeSinceRestFactor
                                    + pulseFactor + eyelidFactor + weatherFactor
                                    + trafficFactor + roadTypeFactor);
      assert fatigueProb == FatigueProb(e);

      probs[0, i] := 1.0 - fatigueProb;
      probs[1, i] := fatigueProb;
    }
  }

  /** Looked up at the column its evidence encodes, the table as written
      is not monotone: in rain on a highway, moderate traffic gets 0.35 and
      heavy traffic 0.15 (the factor sums should give 0.25 and 0.45). */
  lemma AsWrittenLookupNotMonotone()
    ensures AtMost(Evidence(0, 0, 0, 0, 1, 1, 0), Evidence(0, 0, 0, 0, 1, 2, 0))
    ensures FatigueProb(DecodeAsWritten(Encode(Evidence(0, 0, 0, 0, 1, 1, 0)))) == 0.35
    ensures FatigueProb(DecodeAsWritten(Encode(Evidence(0, 0, 0, 0, 1, 2, 0)))) == 0.15
    ensures FatigueProb(Evidence(0, 0, 0, 0, 1, 1, 0)) == 0.25
    ensures FatigueProb(Evidence(0, 0, 0, 0, 1, 2, 0)) == 0.45
  {
    assert DecodeAsWritten(12) == Evidence(0, 0, 0, 0, 0, 2, 0);
    assert DecodeAsWritten(15) == Evidence(0, 0, 0, 0, 1, 0, 0);
  }

  /** The same loop with the digits decoded in the table's own column
      order, so that column `i` holds the distribution for the evidence
      `Decode(i)`, i.e. for the evidence that is looked up at `i`. */
  method BuildFatigueTable() returns (probs: array2<real>)
    ensures probs.Length0 == 2 && probs.Length1 == Columns
    ensures forall e :: InDomain(e) ==>
              probs[1, Encode(e)] == FatigueProb(e) && probs[0, Encode(e)] == 1.0 - FatigueProb(e)
    ensures forall i :: 0 <= i < Columns ==>
              probs[1, i] == FatigueProb(Decode(i)) && probs[0, i] == 1.0 - FatigueProb(Decode(i))
  {
    probs := new real[2, 720];
    for i := 0 to 720
      invariant forall j :: 0 <= j < i ==>
                  probs[1, j] == FatigueProb(Decode(j)) && probs[0, j] == 1.0 - FatigueProb(Decode(j))
    {
      var baseProb := 0.05;
      var timeOfDayFactor := if i / 360 != 0 then 0.1 else 0.0;
      var timeSinceRestFactor := if (i / 180) % 2 != 0 then 0.25 else 0.0;
      var pulseFactor := if (i / 90) % 2 != 0 then 0.1 else 0.0;
      var eyelidFactor := if (i / 45) % 2 != 0 then 0.15 else 0.0;
      var weatherFactor := [0.0, 0.1, 0.25, 0.3, 0.4][(i / 9) % 5];
      var trafficFactor := [0.0, 0.1, 0.3][(i / 3) % 3];
      var roadTypeFactor := [0.0, 0.05, 0.2][i % 3];

      ghost var e := Decode(i);
      assert timeOfDayFactor == TimeOfDayFactors[e.timeOfDay];
      assert timeSinceRestFactor == TimeSinceRestFactors[e.timeSinceRest];
      assert pulseFactor == PulseFactors[e.pulse];
      assert eyelidFactor == EyelidFactors[e.eyelidMovement];
      assert weatherFactor == WeatherFactors[e.weather];
      assert trafficFactor == TrafficFactors[e.traffic];
      assert roadTypeFactor == RoadTypeFactors[e.roadType];
      var fatigueProb := Min(1.0, baseProb + timeOfDayFactor + timeSinceRestFactor
                                    + pulseFactor + eyelidFactor + weatherFactor
                                    + trafficFactor + roadTypeFactor);
      assert fatigueProb == FatigueProb(e);

      probs[0, i] := 1.0 - fatigueProb;
      probs[1, i] := fatigueProb;
    }
    forall e | InDomain(e)
      ensures probs[1, Encode(e)] == FatigueProb(e) && probs[0, Encode(e)] == 1.0 - FatigueProb(e)
    {
      EncodeThenDecode(e);
    }
  }

  // The dictionaries `evaluate_fatigue` looks the environment strings up in.
  const WeatherIndex: map<string, nat> := map["clear" := 0, "rain" := 1, "fog" := 2, "snow" := 3, "bad" := 4]
  const TrafficIndex: map<string, nat> := map["low" := 0, "medium" := 1, "high" := 2]
  const RoadTypeIndex: map<string, nat> := map["highway" := 0, "city" := 1, "rural" := 2]

  /** Each dictionary maps its keys one-to-one onto the states of its variable. */
  lemma IndexDictionariesBijective()
    ensures forall k :: 0 <= k < 5 ==> WeatherIndex[EnvironmentModel.WeatherKeys[k]] == k
    ensures forall k :: 0 <= k < 3 ==> TrafficIndex[EnvironmentModel.TrafficKeys[k]] == k
    ensures forall k :: 0 <= k < 3 ==> RoadTypeIndex[EnvironmentModel.RoadKeys[k]] == k
  {
  }

  /** `1 if c else 0`. */
  function Indicator(c: bool): nat
  {
    if c then 1 else 0
  }

  /** The evidence dictionary of `evaluate_fatigue`. The three binary
      thresholds are strict; the environment strings are looked up in
      dictionary order, so the first unknown one is the `KeyError`. */
  function EncodeEvidence(ds: DriverState, timeSinceRestHours: real): (r: Lookup<Evidence>)
    reads ds
    ensures r.Ok? <==> ds.weatherCondition in WeatherIndex && ds.trafficDensity in TrafficIndex
                       && ds.roadType in RoadTypeIndex
    ensures r.KeyError? ==>
              r.key == (if ds.weatherCondition !in WeatherIndex then ds.weatherCondition
                        else if ds.trafficDensity !in TrafficIndex then ds.trafficDensity
                        else ds.roadType)
    ensures r.Ok? ==>
              && InDomain(r.value)
              && (r.value.timeOfDay == 1 <==> ds.timeOfDay == "night")
              && (r.value.timeSinceRest == 1 <==> timeSinceRestHours > 2.0)
              && (r.value.pulse == 1 <==> ds.pulse > 85.0)
              && (r.value.eyelidMovement == 1 <==> ds.eyelidMovement < 0.6)
              && r.value.weather == WeatherIndex[ds.weatherCondition]
              && r.value.traffic == TrafficIndex[ds.trafficDensity]
              && r.value.roadType == RoadTypeIndex[ds.roadType]
  {
    if ds.weatherCondition !in WeatherIndex then KeyError(ds.weatherCondition)
    else if ds.trafficDensity !in TrafficIndex then KeyError(ds.trafficDensity)
    else if ds.roadType !in RoadTypeIndex then KeyError(ds.roadType)
    else
      Ok(Evidence(
        Indicator(ds.timeOfDay == "night"),
        Indicator(timeSinceRestHours > 2.0),
        Indicator(ds.pulse > 85.0),
        Indicator(ds.eyelidMovement < 0.6),
        WeatherIndex[ds.weatherCondition],
        TrafficIndex[ds.trafficDensity],
        RoadTypeIndex[ds.roadType]))
  }

  /** The record's default environment strings are all encodable, and
      with short drive time and calm readings they encode to column 0. */
  lemma DefaultStateEncodes(ds: DriverState, timeSinceRestHours: real)
    requires ds.HasDefaults()
    ensures EncodeEvidence(ds, timeSinceRestHours).Ok?
    ensures timeSinceRestHours <= 2.0 && ds.pulse <= 85.0 && ds.eyelidMovement >= 0.6 ==>
              EncodeEvidence(ds, timeSinceRestHours).value == Evidence(0, 0, 0, 0, 0, 0, 0)
  {
  }

  /** The environment simulator's key tables are exactly the evaluator's
      dictionary keys, so any weather, traffic or road type it produces
      from an encodable state is encodable. */
  lemma SimulatorKeysAreEncodable()
    ensures forall w :: w in EnvironmentModel.WeatherKeys <==> w in WeatherIndex
    ensures forall t :: t in EnvironmentModel.TrafficKeys <==> t in TrafficIndex
    ensures forall r :: r in EnvironmentModel.RoadKeys <==> r in RoadTypeIndex
  {
  }

  /** The evaluator: its fatigue table, filled once at construction. */
  class FatigueEvaluator {
    const fatigueCpd: array2<real>

    /** The table holds, column by column, the fatigue distribution. */
    predicate Valid()
      reads fatigueCpd
    {
      && fatigueCpd.Length0 == 2 && fatigueCpd.Length1 == Columns
      && forall i :: 0 <= i < Columns ==>
           fatigueCpd[1, i] == FatigueProb(Decode(i)) && fatigueCpd[0, i] == 1.0 - FatigueProb(Decode(i))
    }

    constructor ()
      ensures Valid()
    {
      var probs := BuildFatigueTable();
      fatigueCpd := probs;
    }

    /** Every column of a valid table is a probability distribution. */
    lemma ColumnsAreDistributions()
      requires Valid()
      ensures forall i :: 0 <= i < Columns ==>
                && fatigueCpd[0, i] + fatigueCpd[1, i] == 1.0
                && 0.0 <= fatigueCpd[0, i] <= 1.0 && 0.05 <= fatigueCpd[1, i] <= 1.0
    {
    }

    /** `evaluate_fatigue`: the probability of high fatigue given the
        driver's state, or the `KeyError` of an unknown environment string. */
    function EvaluateFatigue(ds: DriverState, timeSinceRestHours: real): (r: Lookup<real>)
      reads this, fatigueCpd, ds
      requires Valid()
      ensures r.Ok? <==> ds.weatherCondition in WeatherIndex && ds.trafficDensity in TrafficIndex
                         && ds.roadType in RoadTypeIndex
      ensures r.KeyError? ==> r == KeyError(EncodeEvidence(ds, timeSinceRestHours).key)
      ensures r.Ok? ==> r.value == FatigueProb(EncodeEvidence(ds, timeSinceRestHours).value)
      ensures r.Ok? ==> 0.05 <= r.value <= 1.0
    {
      match EncodeEvidence(ds, timeSinceRestHours)
      case KeyError(k) => KeyError(k)
      case Ok(e) =>
        EncodeThenDecode(e);
        Ok(fatigueCpd[1, Encode(e)])
    }
  }
}

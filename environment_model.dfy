/// The environment simulator: sticky categorical transitions of weather,
/// traffic and road type. The two uniform draws that `random.random()`
/// supplies on each call are parameters.
module EnvironmentModel {

  // Per-tick change probabilities and the categorical tables.
  const WeatherChangeProb: real := 1.0 / 36.0
  const WeatherKeys: seq<string> := ["clear", "rain", "fog", "snow", "bad"]
  const WeatherWeights: seq<real> := [0.5, 0.1, 0.1, 0.1, 0.2]

  const TrafficChangeProb: real := 1.0 / 12.0
  const TrafficKeys: seq<string> := ["low", "medium", "high"]
  const TrafficWeights: seq<real> := [0.4, 0.4, 0.2]

  const RoadChangeProb: real := 1.0 / 12.0
  const RoadKeys: seq<string> := ["highway", "city", "rural"]
  const RoadWeights: seq<real> := [0.6, 0.3, 0.1]

  /** Sum of a weight list, added left to right. */
  function Sum(w: seq<real>): real
  {
    if w == [] then 0.0 else Sum(w[..|w| - 1]) + w[|w| - 1]
  }

  predicate Positive(w: seq<real>)
  {
    forall k :: 0 <= k < |w| ==> w[k] > 0.0
  }

  /** A probability table: one positive weight per key, no key twice. */
  predicate IsTable(keys: seq<string>, weights: seq<real>)
  {
    && |keys| == |weights| > 0
    && Positive(weights)
    && forall i, j :: 0 <= i < j < |keys| ==> keys[i] != keys[j]
  }

  /** The three tables are probability tables whose weights sum to exactly
      1, and each change probability lies strictly between 0 and 1. */
  lemma TablesAreDistributions()
    ensures IsTable(WeatherKeys, WeatherWeights) && Sum(WeatherWeights) == 1.0
    ensures IsTable(TrafficKeys, TrafficWeights) && Sum(TrafficWeights) == 1.0
    ensures IsTable(RoadKeys, RoadWeights) && Sum(RoadWeights) == 1.0
    ensures 0.0 < WeatherChangeProb < 1.0 && 0.0 < TrafficChangeProb < 1.0 && 0.0 < RoadChangeProb < 1.0
  {
    SumOfPrefixes(WeatherWeights, 5);
    assert Sum(WeatherWeights[..1]) == 0.5;
    assert Sum(WeatherWeights[..2]) == 0.6;
    assert Sum(WeatherWeights[..3]) == 0.7;
    assert Sum(WeatherWeights[..4]) == 0.8;
    assert WeatherWeights[..5] == WeatherWeights;
    SumOfPrefixes(TrafficWeights, 3);
    assert TrafficWeights[..3] == TrafficWeights;
    SumOfPrefixes(RoadWeights, 3);
    assert RoadWeights[..3] == RoadWeights;
  }

  /** The `n`-th running sum is the previous one plus the `n`-th weight. */
  lemma SumSnoc(w: seq<real>, n: nat)
    requires n < |w|
    ensures Sum(w[..n + 1]) == Sum(w[..n]) + w[n]
  {
    assert w[..n + 1][..n] == w[..n];
  }

  /** Unfolds every running sum of the first `n` weights. */
  lemma {:induction false} SumOfPrefixes(w: seq<real>, n: nat)
    requires n <= |w|
    ensures forall k :: 0 <= k < n ==> Sum(w[..k + 1]) == Sum(w[..k]) + w[k]
  {
    if n > 0 {
      SumOfPrefixes(w, n - 1);
      SumSnoc(w, n - 1);
    }
  }

  /** `itertools.accumulate`: the running sums of a weight list. */
  function Accumulate(w: seq<real>): (c: seq<real>)
    ensures |c| == |w|
  {
    seq(|w|, k requires 0 <= k < |w| => Sum(w[..k + 1]))
  }

  /** The last running sum is the total weight. */
  lemma AccumulateEndsAtSum(w: seq<real>)
    requires |w| > 0
    ensures Accumulate(w)[|w| - 1] == Sum(w)
  {
    assert w[..|w|] == w;
  }

  /** Running sums of positive weights strictly increase. */
  lemma AccumulateIncreasing(w: seq<real>)
    requires Positive(w)
    ensures forall i, j :: 0 <= i < j < |w| ==> Accumulate(w)[i] < Accumulate(w)[j]
  {
    forall i, j | 0 <= i < j < |w| ensures Accumulate(w)[i] < Accumulate(w)[j] {
      SumPrefixIncreasing(w, i + 1, j + 1);
    }
  }

  lemma {:induction false} SumPrefixIncreasing(w: seq<real>, m: nat, n: nat)
    requires Positive(w) && m < n <= |w|
    ensures Sum(w[..m]) < Sum(w[..n])
  {
    SumSnoc(w, n - 1);
    if m < n - 1 {
      SumPrefixIncreasing(w, m, n - 1);
    }
  }

  predicate Sorted(a: seq<real>)
  {
    forall i, j :: 0 <= i < j < |a| ==> a[i] <= a[j]
  }

  /** `bisect.bisect_right(a, x, lo, hi)`: the binary search for the first
      index in `[lo, hi)` whose entry exceeds `x`, or `hi` if none does. */
  function BisectRight(a: seq<real>, x: real, lo: nat, hi: nat): (k: nat)
    requires lo <= hi <= |a| && Sorted(a)
    ensures lo <= k <= hi
    ensures forall j :: lo <= j < k ==> a[j] <= x
    ensures forall j :: k <= j < hi ==> x < a[j]
    decreases hi - lo
  {
    if lo < hi then
      var mid := (lo + hi) / 2;
      if x < a[mid] then BisectRight(a, x, lo, mid) else BisectRight(a, x, mid + 1, hi)
    else lo
  }

  /** The index `bisect_right` yields for the point `x` on the running sums
      of `weights`, never past the last index. */
  function PickAt(weights: seq<real>, x: real): (k: nat)
    requires |weights| > 0 && Positive(weights)
    ensures k < |weights|
  {
    AccumulateIncreasing(weights);
    BisectRight(Accumulate(weights), x, 0, |weights| - 1)
  }

  /** The pick is `k` exactly when `x` falls in
      `[Sum(weights[..k]), Sum(weights[..k + 1]))`, the first interval being
      open below and the last open above. */
  lemma PickAtInterval(weights: seq<real>, x: real)
    requires |weights| > 0 && Positive(weights)
    ensures var k := PickAt(weights, x);
            && (0 < k ==> Sum(weights[..k]) <= x)
            && (k < |weights| - 1 ==> x < Sum(weights[..k + 1]))
  {
    var cum := Accumulate(weights);
    AccumulateIncreasing(weights);
    var k := BisectRight(cum, x, 0, |weights| - 1);
    if 0 < k {
      assert cum[k - 1] <= x;
    }
    if k < |weights| - 1 {
      assert x < cum[k];
    }
  }

  /** The index `random.choices(keys, weights)` picks when `random()`
      returns `u`: the point is `u` times the total weight, the last running
      sum (`AccumulateEndsAtSum`). */
  function ChoiceIndex(weights: seq<real>, u: real): (k: nat)
    requires |weights| > 0 && Positive(weights) && 0.0 <= u < 1.0
    ensures k < |weights|
  {
    PickAt(weights, u * Sum(weights))
  }

  /** For a table whose weights sum to 1 (all three here do), key `k` is
      drawn exactly when `u` falls in `[Sum(weights[..k]), Sum(weights[..k + 1]))`,
      an interval of width `weights[k]`. */
  lemma ChoiceIndexInterval(weights: seq<real>, u: real)
    requires |weights| > 0 && Positive(weights) && 0.0 <= u < 1.0 && Sum(weights) == 1.0
    ensures var k := ChoiceIndex(weights, u);
            && (0 < k ==> Sum(weights[..k]) <= u)
            && (k < |weights| - 1 ==> u < Sum(weights[..k + 1]))
  {
    assert u * Sum(weights) == u;
    PickAtInterval(weights, u);
  }

  /** `random.choices(keys, weights)[0]` for the draw `u`. */
  function Choice(keys: seq<string>, weights: seq<real>, u: real): (r: string)
    requires IsTable(keys, weights) && 0.0 <= u < 1.0
    ensures r in keys
  {
    keys[ChoiceIndex(weights, u)]
  }

  /** The shared body of the three `simulate_*` methods: redraw from the
      table when `draw` falls below the change probability, otherwise keep
      the current value. */
  function Redraw(current: string, changeProb: real, keys: seq<string>, weights: seq<real>,
                  draw: real, u: real): (r: string)
    requires IsTable(keys, weights) && 0.0 <= u < 1.0
    ensures draw >= changeProb ==> r == current
    ensures draw < changeProb ==> r in keys
  {
    if draw < changeProb then Choice(keys, weights, u) else current
  }

  /** `simulate_weather`: unchanged unless `draw < 1/36`, else a weather key. */
  function SimulateWeather(current: string, draw: real, u: real): (r: string)
    requires 0.0 <= draw < 1.0 && 0.0 <= u < 1.0
    ensures r == current || r in WeatherKeys
    ensures draw >= WeatherChangeProb ==> r == current
    ensures draw < WeatherChangeProb ==> r in WeatherKeys
  {
    TablesAreDistributions();
    Redraw(current, WeatherChangeProb, WeatherKeys, WeatherWeights, draw, u)
  }

  /** `simulate_road_type`: unchanged unless `draw < 1/12`, else a road key. */
  function SimulateRoadType(current: string, draw: real, u: real): (r: string)
    requires 0.0 <= draw < 1.0 && 0.0 <= u < 1.0
    ensures r == current || r in RoadKeys
    ensures draw >= RoadChangeProb ==> r == current
    ensures draw < RoadChangeProb ==> r in RoadKeys
  {
    TablesAreDistributions();
    Redraw(current, RoadChangeProb, RoadKeys, RoadWeights, draw, u)
  }

  /** `simulate_traffic`: unchanged unless `draw < 1/12`, else a traffic key. */
  function SimulateTraffic(current: string, draw: real, u: real): (r: string)
    requires 0.0 <= draw < 1.0 && 0.0 <= u < 1.0
    ensures r == current || r in TrafficKeys
    ensures draw >= TrafficChangeProb ==> r == current
    ensures draw < TrafficChangeProb ==> r in TrafficKeys
  {
    TablesAreDistributions();
    Redraw(current, TrafficChangeProb, TrafficKeys, TrafficWeights, draw, u)
  }

  /** From an environment whose values are table keys, every transition
      stays within the tables. */
  lemma TransitionsStayInTables(weather: string, traffic: string, road: string,
                                draws: (real, real, real), us: (real, real, real))
    requires weather in WeatherKeys && traffic in TrafficKeys && road in RoadKeys
    requires 0.0 <= draws.0 < 1.0 && 0.0 <= draws.1 < 1.0 && 0.0 <= draws.2 < 1.0
    requires 0.0 <= us.0 < 1.0 && 0.0 <= us.1 < 1.0 && 0.0 <= us.2 < 1.0
    ensures SimulateWeather(weather, draws.0, us.0) in WeatherKeys
    ensures SimulateTraffic(traffic, draws.1, us.1) in TrafficKeys
    ensures SimulateRoadType(road, draws.2, us.2) in RoadKeys
  {
  }

  /** A weather redraw gives "clear" for draws below 0.5 and "bad" for draws
      from 0.8 up, the ends of the running sums 0.5, 0.6, 0.7, 0.8, 1.0. */
  lemma WeatherRedrawByDraw(u: real)
    requires 0.0 <= u < 1.0
    ensures Choice(WeatherKeys, WeatherWeights, u) == "clear" <==> u < 0.5
    ensures Choice(WeatherKeys, WeatherWeights, u) == "bad" <==> 0.8 <= u
  {
    TablesAreDistributions();
    ChoiceIndexInterval(WeatherWeights, u);
    SumOfPrefixes(WeatherWeights, 5);
    assert Sum(WeatherWeights[..1]) == 0.5;
    assert Sum(WeatherWeights[..2]) == 0.6;
    assert Sum(WeatherWeights[..3]) == 0.7;
    assert Sum(WeatherWeights[..4]) == 0.8;
  }
}

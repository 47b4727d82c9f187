/** The two sampling primitives of the generator: weighted categorical choice
    by a cumulative-sum walk, and a log-normal duration clamped to a range. */
module Sampling {
  import opened Stream

  /** Sum of the first `k` weights. */
  function Prefix(weights: seq<real>, k: nat): real
    requires k <= |weights|
  {
    if k == 0 then 0.0 else Prefix(weights, k - 1) + weights[k - 1]
  }

  /** The running sum after the item at index `j`: `cumulative` in the walk. */
  function Cumulative(weights: seq<real>, j: nat): real
    requires j < |weights|
  {
    Prefix(weights, j + 1)
  }

  /** `sum(weights)`. */
  function Sum(weights: seq<real>): real {
    Prefix(weights, |weights|)
  }

  /** `rng.random() * total`: how far into the total weight the walk must
      reach. */
  function Threshold(weights: seq<real>, u: real): real {
    u * Sum(weights)
  }

  ghost predicate NonNegative(weights: seq<real>) {
    forall k :: 0 <= k < |weights| ==> weights[k] >= 0.0
  }

  /** The walk of `_weighted_choice` from position `k`, where `cumulative`
      is the running sum so far. `zip` stops at the shorter of the items
      (`count` of them) and the weights; once it stops, the last item is
      the fallback. The result is an index into the items. */
  function Walk(weights: seq<real>, count: nat, r: real, k: nat, cumulative: real): (i: nat)
    requires 0 < count && k <= count && k <= |weights|
    ensures i < count
    decreases count - k
  {
    if k == count || k == |weights| then count - 1
    else if r <= cumulative + weights[k] then k
    else Walk(weights, count, r, k + 1, cumulative + weights[k])
  }

  /** The index `_weighted_choice` returns for the threshold `r`. */
  function ChosenIndex(weights: seq<real>, count: nat, r: real): (i: nat)
    requires 0 < count
    ensures i < count
  {
    Walk(weights, count, r, 0, 0.0)
  }

  /** `_weighted_choice(items, weights, rng)`: one `random()` draw scaled by
      the total weight, then the cumulative walk. Python fails on an empty
      item list (`items[-1]`), which the precondition excludes. */
  function WeightedChoice<T>(items: seq<T>, weights: seq<real>, rng: Rng): (r: (T, Rng))
    requires |items| > 0
    ensures r.0 in items
    ensures r.0 == items[ChosenIndex(weights, |items|, Threshold(weights, rng.source.uniform(rng.pos)))]
    ensures r.1 == Rng(rng.source, rng.pos + 1)
  {
    (items[ChosenIndex(weights, |items|, Threshold(weights, rng.source.uniform(rng.pos)))], NextUniform(rng).1)
  }

  /** Every step of the walk from `k` keeps the running sum equal to the
      prefix sum. The chosen index is the first one from `k` whose prefix sum
      reaches `r`; when none does, it is the last item. */
  lemma {:induction false} WalkFindsFirstReaching(weights: seq<real>, count: nat, r: real, k: nat)
    requires 0 < count && k <= count && k <= |weights|
    ensures var i := Walk(weights, count, r, k, Prefix(weights, k));
      var m := if count < |weights| then count else |weights|;
      || (k <= i < m && r <= Cumulative(weights, i) && forall j :: k <= j < i ==> Cumulative(weights, j) < r)
      || (i == count - 1 && forall j :: k <= j < m ==> Cumulative(weights, j) < r)
    decreases count - k
  {
    if k == count || k == |weights| {
    } else if r <= Prefix(weights, k) + weights[k] {
    } else {
      WalkFindsFirstReaching(weights, count, r, k + 1);
    }
  }

  /** `_weighted_choice` returns the first item whose prefix weight sum is at
      least `r`, and the last item when there is none. */
  lemma ChoiceIsFirstReaching(weights: seq<real>, count: nat, r: real)
    requires 0 < count
    ensures var i := ChosenIndex(weights, count, r);
      var m := if count < |weights| then count else |weights|;
      || (i < m && r <= Cumulative(weights, i) && forall j :: 0 <= j < i ==> Cumulative(weights, j) < r)
      || (i == count - 1 && forall j :: 0 <= j < m ==> Cumulative(weights, j) < r)
  {
    WalkFindsFirstReaching(weights, count, r, 0);
  }

  /** With non-negative weights, prefix sums grow with the prefix. */
  lemma {:induction false} PrefixMonotone(weights: seq<real>, j: nat, k: nat)
    requires NonNegative(weights) && j <= k <= |weights|
    ensures Prefix(weights, j) <= Prefix(weights, k)
    decreases k - j
  {
    if j < k {
      PrefixMonotone(weights, j, k - 1);
    }
  }

  /** With one weight per item, non-negative weights and `r = u * total` for
      a `random()` value `u`, the fallback is never taken: some prefix sum
      reaches `r`. */
  lemma FallbackUnreached(weights: seq<real>, u: real)
    requires 0 < |weights| && NonNegative(weights) && 0.0 <= u < 1.0
    ensures Threshold(weights, u) <= Cumulative(weights, ChosenIndex(weights, |weights|, Threshold(weights, u)))
  {
    ThresholdWithinTotal(weights, u);
    ThresholdReached(weights, Threshold(weights, u));
  }

  /** With non-negative weights, `random() * total` lies in [0, total]. */
  lemma ThresholdWithinTotal(weights: seq<real>, u: real)
    requires NonNegative(weights) && 0.0 <= u < 1.0
    ensures 0.0 <= Threshold(weights, u) <= Sum(weights)
  {
    SumNonNegative(weights);
    var total := Sum(weights);
    ScaleUnit(total, u);
    assert Threshold(weights, u) == u * total;
  }

  lemma SumNonNegative(weights: seq<real>)
    requires NonNegative(weights)
    ensures 0.0 <= Sum(weights)
  {
    assert Prefix(weights, 0) == 0.0;
    PrefixMonotone(weights, 0, |weights|);
  }

  /** A threshold between 0 and the total is reached by the chosen prefix
      sum: when the walk falls back to the last item, its prefix sum is the
      total. */
  lemma ThresholdReached(weights: seq<real>, r: real)
    requires 0 < |weights| && r <= Sum(weights)
    ensures r <= Cumulative(weights, ChosenIndex(weights, |weights|, r))
  {
    ChoiceIsFirstReaching(weights, |weights|, r);
    assert Cumulative(weights, |weights| - 1) == Sum(weights);
  }

  /** A zero-weight item is chosen only when it is the first item and the
      scaled draw is exactly 0 (`r <= cumulative` holds with equality). */
  lemma ZeroWeightOnlyFirstAtZero(weights: seq<real>, u: real)
    requires 0 < |weights| && NonNegative(weights) && 0.0 <= u < 1.0
    ensures var i := ChosenIndex(weights, |weights|, Threshold(weights, u));
      weights[i] == 0.0 ==> i == 0 && Threshold(weights, u) == 0.0
  {
    var r := u * Sum(weights);
    var i := ChosenIndex(weights, |weights|, r);
    FallbackUnreached(weights, u);
    ChoiceIsFirstReaching(weights, |weights|, r);
    PrefixMonotone(weights, 0, |weights|);
    ScaleUnit(Sum(weights), u);
    if weights[i] == 0.0 && i > 0 {
      CumulativeStep(weights, i);
      assert false;
    }
  }

  /** With a positive total, the chosen item has positive weight unless it
      is the first item and the `random()` draw is exactly 0. */
  lemma PositiveWeightChosen(weights: seq<real>, u: real)
    requires 0 < |weights| && NonNegative(weights) && 0.0 <= u < 1.0 && Sum(weights) > 0.0
    ensures var i := ChosenIndex(weights, |weights|, Threshold(weights, u));
      weights[i] > 0.0 || (i == 0 && u == 0.0)
  {
    ZeroWeightOnlyFirstAtZero(weights, u);
    var i := ChosenIndex(weights, |weights|, u * Sum(weights));
    if weights[i] == 0.0 {
      ProductZero(u, Sum(weights));
    }
  }

  lemma ProductZero(u: real, t: real)
    requires t > 0.0 && u * t == 0.0
    ensures u == 0.0
  {
  }

  lemma CumulativeStep(weights: seq<real>, j: nat)
    requires 0 < j < |weights|
    ensures Cumulative(weights, j) == Cumulative(weights, j - 1) + weights[j]
  {
  }

  /** `max(min_val, min(val, max_val))`. */
  function Clamp(value: real, lo: real, hi: real): (r: real)
    ensures lo <= hi ==> lo <= r <= hi
    ensures lo <= value <= hi ==> r == value
    ensures value < lo ==> r == lo
    ensures lo <= hi < value ==> r == hi
  {
    var capped := if value < hi then value else hi;
    if lo < capped then capped else lo
  }

  /** Default bounds of a sampled duration, in minutes. */
  const MIN_MINUTES: real := 3.0
  const MAX_MINUTES: real := 600.0

  /** The value `math.exp(rng.gauss(mu, sigma))` before clamping. */
  function RawLognormal(mu: real, sigma: real, rng: Rng): (v: real)
    ensures v == rng.source.exp(mu + sigma * rng.source.gaussian(rng.pos))
  {
    rng.source.exp(NextGauss(rng, mu, sigma).0)
  }

  /** `d` is the raw log-normal draw at `rng` brought into [minVal, maxVal]:
      unchanged when it already lies there, else the bound it crossed. */
  ghost predicate ClampedDraw(d: real, mu: real, sigma: real, rng: Rng, minVal: real, maxVal: real) {
    var raw := RawLognormal(mu, sigma, rng);
    && minVal <= d <= maxVal
    && (minVal <= raw <= maxVal ==> d == raw)
    && (raw < minVal ==> d == minVal)
    && (maxVal < raw ==> d == maxVal)
  }

  /** `_sample_lognormal(mu, sigma, rng, min_val, max_val)`: exactly one
      Gaussian draw, exponentiated and clamped. */
  function SampleLognormal(mu: real, sigma: real, rng: Rng, minVal: real, maxVal: real): (r: (real, Rng))
    ensures minVal <= maxVal ==> ClampedDraw(r.0, mu, sigma, rng, minVal, maxVal)
    ensures r.1 == Rng(rng.source, rng.pos + 1)
  {
    var (g, next) := NextGauss(rng, mu, sigma);
    (Clamp(rng.source.exp(g), minVal, maxVal), next)
  }
}

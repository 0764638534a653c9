/**
  Mock data (`generate_mock_social_series`, `generate_mock_trends`). The random draws of the series
  generator are inputs: `noise[i]` is the `randint(-5, 8)` drawn on day `i`, and `spikes[i]` the
  `randint(20, 60)` drawn on day `i` when that day spikes (entries for other days are never read).
 */
module MockData {

  /** The defaults of `generate_mock_social_series`. */
  const DEFAULT_DAYS: int := 14
  const DEFAULT_BASE: int := 100

  /** `randint(-5, 8)` and `randint(20, 60)`: the ranges the draws come from. */
  predicate NoiseDraws(noise: seq<int>)
  {
    forall i :: 0 <= i < |noise| ==> -5 <= noise[i] <= 8
  }

  predicate SpikeDraws(spikes: seq<int>)
  {
    forall i :: 0 <= i < |spikes| ==> 20 <= spikes[i] <= 60
  }

  /** Day `i` spikes when spiking is on and `i` is one of the last three days. */
  predicate Spikes(spike: bool, i: int, days: int)
  {
    spike && i > days - 4
  }

  /** The level after day `i`: the noisy level kept at least 1, then the spike added. */
  function NextLevel(level: int, i: int, days: int, spike: bool, noise: int, spikeDraw: int): int
  {
    var noisy := if level + noise > 1 then level + noise else 1;
    if Spikes(spike, i, days) then noisy + spikeDraw else noisy
  }

  /** The first `k` points of the series. */
  function MockSeries(k: nat, days: int, base: int, spike: bool, noise: seq<int>, spikes: seq<int>): (s: seq<int>)
    requires k <= |noise| && k <= |spikes|
    ensures |s| == k
  {
    if k == 0 then []
    else
      var prev := MockSeries(k - 1, days, base, spike, noise, spikes);
      var level := if k == 1 then base else prev[k - 2];
      prev + [NextLevel(level, k - 1, days, spike, noise[k - 1], spikes[k - 1])]
  }

  /** Every point is the next level after the point before it (after `base` for the first). */
  lemma {:induction false} MockSeriesAt(k: nat, days: int, base: int, spike: bool, noise: seq<int>, spikes: seq<int>, i: nat)
    requires k <= |noise| && k <= |spikes| && i < k
    ensures var s := MockSeries(k, days, base, spike, noise, spikes);
      s[i] == NextLevel(if i == 0 then base else s[i - 1], i, days, spike, noise[i], spikes[i])
  {
    if i < k - 1 {
      MockSeriesAt(k - 1, days, base, spike, noise, spikes, i);
    }
  }

  /** `generate_mock_social_series`: `level` rebound day by day and appended. A negative `days`
      gives the empty series, as `range` does. */
  method GenerateMockSocialSeries(days: int, base: int, spike: bool, noise: seq<int>, spikes: seq<int>)
    returns (series: seq<int>)
    requires |noise| >= days && |spikes| >= days
    ensures series == MockSeries(if days < 0 then 0 else days, days, base, spike, noise, spikes)
  {
    series := [];
    var level := base;
    var i := 0;
    while i < days
      invariant 0 <= i <= (if days < 0 then 0 else days)
      invariant series == MockSeries(i, days, base, spike, noise, spikes)
      invariant level == if i == 0 then base else series[i - 1]
    {
      var draw := noise[i];
      level := if level + draw > 1 then level + draw else 1;
      if spike && i > days - 4 {
        level := level + spikes[i];
      }
      series := series + [level];
      i := i + 1;
    }
  }

  /** Every point is at least 1, whatever the base. */
  lemma MockSeriesPositive(k: nat, days: int, base: int, spike: bool, noise: seq<int>, spikes: seq<int>)
    requires k <= |noise| && k <= |spikes| && SpikeDraws(spikes)
    ensures forall i :: 0 <= i < k ==> MockSeries(k, days, base, spike, noise, spikes)[i] >= 1
  {
    forall i | 0 <= i < k
      ensures MockSeries(k, days, base, spike, noise, spikes)[i] >= 1
    {
      MockSeriesAt(k, days, base, spike, noise, spikes, i);
    }
  }

  /** On a day that does not spike, the point differs from the one before by between −5 and +8. */
  lemma MockSeriesQuietStep(k: nat, days: int, base: int, spike: bool, noise: seq<int>, spikes: seq<int>, i: nat)
    requires k <= |noise| && k <= |spikes| && NoiseDraws(noise) && SpikeDraws(spikes)
    requires 0 < i < k && !Spikes(spike, i, days)
    ensures var s := MockSeries(k, days, base, spike, noise, spikes);
      -5 <= s[i] - s[i - 1] <= 8
  {
    MockSeriesPositive(k, days, base, spike, noise, spikes);
    MockSeriesAt(k, days, base, spike, noise, spikes, i);
  }

  /** On a spiking day the point exceeds the one before by at least 15 (the spike stays in the level),
      and spiking days are exactly the last three. */
  lemma MockSeriesSpikeStep(k: nat, days: int, base: int, spike: bool, noise: seq<int>, spikes: seq<int>, i: nat)
    requires k <= |noise| && k <= |spikes| && NoiseDraws(noise) && SpikeDraws(spikes)
    requires 0 < i < k && Spikes(spike, i, days)
    ensures var s := MockSeries(k, days, base, spike, noise, spikes);
      s[i] - s[i - 1] >= 15 && i >= days - 3
  {
    MockSeriesAt(k, days, base, spike, noise, spikes, i);
  }

  /** Without spiking, the whole series moves by −5 to +8 per day. */
  lemma MockSeriesFlat(days: nat, base: int, noise: seq<int>, spikes: seq<int>)
    requires days <= |noise| && days <= |spikes| && NoiseDraws(noise) && SpikeDraws(spikes)
    ensures var s := MockSeries(days, days, base, false, noise, spikes);
      forall i :: 0 < i < days ==> -5 <= s[i] - s[i - 1] <= 8
  {
    forall i | 0 < i < days
      ensures var s := MockSeries(days, days, base, false, noise, spikes); -5 <= s[i] - s[i - 1] <= 8
    {
      MockSeriesQuietStep(days, days, base, false, noise, spikes, i);
    }
  }

  /** One mock trend candidate. */
  datatype MockTrend = MockTrend(entity: string, category: string, holidaySoon: bool, spike: bool)

  /** `generate_mock_trends`. */
  function GenerateMockTrends(): (ts: seq<MockTrend>)
    ensures |ts| == 3
    ensures forall i :: 0 <= i < 3 ==> (ts[i].holidaySoon <==> ts[i].entity == "National Potato Chip Day")
    ensures forall i :: 0 <= i < 3 ==> (!ts[i].spike <==> ts[i].entity == "Bubble Tea")
  {
    [MockTrend("National Potato Chip Day", "Snacks", true, true),
     MockTrend("Avocado Toast", "Breakfast", false, true),
     MockTrend("Bubble Tea", "Beverages", false, false)]
  }
}

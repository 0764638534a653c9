/**
  Social ingestion (`social_ingestion_service.py`, identical in its two copies): the mock posts, their
  aggregation per food, the naive pseudo series, the per-platform momentum, its agreement band and
  the leading platform, and the front padding of a series read from the database.
 */
module SocialIngestion {
  import opened Wrappers
  import opened Numeric
  import opened Tally
  import opened Schemas

  /** `engagement.get(key, 0)`. */
  function Counter(engagement: map<string, int>, key: string): int
  {
    if key in engagement then engagement[key] else 0
  }

  /** likes + comments + shares, each 0 when absent. */
  function Engagement(s: SocialSignal): int
  {
    Counter(s.engagement, "likes") + Counter(s.engagement, "comments") + Counter(s.engagement, "shares")
  }

  /** The engagement of every post, in order. */
  function Engagements(signals: seq<SocialSignal>): (es: seq<int>)
    ensures |es| == |signals| && forall i :: 0 <= i < |signals| ==> es[i] == Engagement(signals[i])
  {
    seq(|signals|, i requires 0 <= i < |signals| => Engagement(signals[i]))
  }

  /** Every engagement counter of every post is non-negative. */
  predicate NonNegativeEngagement(signals: seq<SocialSignal>)
  {
    forall i :: 0 <= i < |signals| ==> Engagement(signals[i]) >= 0
  }

  /** `n` copies of `x`. */
  function Copies(x: int, n: nat): (r: seq<int>)
    ensures |r| == n && forall i :: 0 <= i < n ==> r[i] == x
  {
    if n == 0 then [] else Copies(x, n - 1) + [x]
  }

  // ---------------------------------------------------------------- mock ingestion

  function MockSignal(platform: string, postId: string, hour: string, text: string, tag: string,
                      likes: int, comments: int, shares: int, followers: int): SocialSignal
  {
    SocialSignal(platform, postId, "2026-02-10T" + hour + ":00:00Z", Some(text), ["#nachos", tag], ["nachos"],
                 map["likes" := likes, "comments" := comments, "shares" := shares], followers, Some("US"))
  }

  /** `ingest_mock_social_signals`: three fixed posts about nachos. */
  function IngestMockSocialSignals(): (signals: seq<SocialSignal>)
    ensures |signals| == 3
    ensures signals[0].platform == "tiktok" && signals[1].platform == "instagram"
         && signals[2].platform == "youtube"
    ensures forall i :: 0 <= i < 3 ==> signals[i].foodEntities == ["nachos"] && signals[i].geo == Some("US")
  {
    [ MockSignal("tiktok", "t1", "10", "Nachos with extra cheese!", "#snacktime", 1200, 84, 22, 54000),
      MockSignal("instagram", "i1", "11", "Late night nachos craving \U{F0}\U{178}\U{2DC}\U{2039}",
                 "#midnightmunchies", 980, 63, 15, 21000),
      MockSignal("youtube", "y1", "12", "Street style loaded nachos recipe", "#streetfood", 1500, 120, 40, 88000) ]
  }

  // ---------------------------------------------------------------- aggregation per food

  /** Every food mention of every post, post by post. */
  function Mentions(signals: seq<SocialSignal>): seq<string>
  {
    if |signals| == 0 then []
    else Mentions(signals[..|signals| - 1]) + signals[|signals| - 1].foodEntities
  }

  /** The post's engagement once per food it mentions. */
  function PostWeights(s: SocialSignal): (ws: seq<int>)
    ensures |ws| == |s.foodEntities| && forall i :: 0 <= i < |ws| ==> ws[i] == Engagement(s)
  {
    seq(|s.foodEntities|, _ => Engagement(s))
  }

  /** The engagement of the post each mention comes from, position by position. */
  function MentionWeights(signals: seq<SocialSignal>): (ws: seq<int>)
    ensures |ws| == |Mentions(signals)|
  {
    if |signals| == 0 then []
    else
      var last := signals[|signals| - 1];
      MentionWeights(signals[..|signals| - 1]) + PostWeights(last)
  }

  lemma MentionsStep(signals: seq<SocialSignal>, i: nat)
    requires i < |signals|
    ensures Mentions(signals[..i + 1]) == Mentions(signals[..i]) + signals[i].foodEntities
    ensures MentionWeights(signals[..i + 1])
         == MentionWeights(signals[..i]) + PostWeights(signals[i])
  {
    assert signals[..i + 1][..i] == signals[..i];
  }

  /** The trend signal of one food, given all mentions and their weights. */
  function TrendFor(food: string, ms: seq<string>, ws: seq<int>): TrendSignal
    requires |ws| == |ms|
  {
    TrendSignal(food, 24, Occurrences(ms, food), WeightOf(ms, ws, food) as real, 0.5, map["US" := 1.0])
  }

  function TrendsFor(foods: seq<string>, ms: seq<string>, ws: seq<int>): (trends: seq<TrendSignal>)
    requires |ws| == |ms|
    ensures |trends| == |foods|
    ensures forall i :: 0 <= i < |foods| ==> trends[i] == TrendFor(foods[i], ms, ws)
  {
    if |foods| == 0 then []
    else TrendsFor(foods[..|foods| - 1], ms, ws) + [TrendFor(foods[|foods| - 1], ms, ws)]
  }

  /** What `aggregate_to_trend_signal` returns: one trend per food, in order of first mention. */
  function Aggregate(signals: seq<SocialSignal>): seq<TrendSignal>
  {
    var ms := Mentions(signals);
    TrendsFor(Distinct(ms), ms, MentionWeights(signals))
  }

  /** The inner loop of `aggregate_to_trend_signal`: one post's food mentions counted and weighted by
      the post's engagement. `ms` and `ws` are the mentions and weights tallied so far. */
  method TallyPost(foods: seq<string>, counts: map<string, int>, sums: map<string, int>, s: SocialSignal,
                   ghost ms: seq<string>, ghost ws: seq<int>)
    returns (foods': seq<string>, counts': map<string, int>, sums': map<string, int>)
    requires |ws| == |ms| && Weighed(foods, sums, ms, ws) && Counted(counts, ms)
    ensures Weighed(foods', sums', ms + s.foodEntities, ws + PostWeights(s))
    ensures Counted(counts', ms + s.foodEntities)
  {
    var e := Engagement(s);
    foods', counts', sums' := foods, counts, sums;
    ghost var xs, ys := ms, ws;
    for j := 0 to |s.foodEntities|
      invariant xs == ms + s.foodEntities[..j] && ys == ws + PostWeights(s)[..j]
      invariant Weighed(foods', sums', xs, ys) && Counted(counts', xs)
    {
      var food := s.foodEntities[j];
      foods', counts', sums' := AddOccurrence(foods', counts', sums', food, e, xs, ys);
      PrefixSnoc(ms, s.foodEntities, j);
      PrefixSnoc(ws, PostWeights(s), j);
      xs, ys := xs + [food], ys + [e];
    }
    assert s.foodEntities[..|s.foodEntities|] == s.foodEntities;
    assert PostWeights(s)[..|s.foodEntities|] == PostWeights(s);
  }

  /** `aggregate_to_trend_signal`: the dictionary of per-food counters filled post by post, then turned
      into trend signals in key order. */
  method AggregateToTrendSignal(signals: seq<SocialSignal>) returns (trends: seq<TrendSignal>)
    ensures trends == Aggregate(signals)
  {
    var foods: seq<string> := [];
    var counts: map<string, int> := map[];
    var sums: map<string, int> := map[];
    for i := 0 to |signals|
      invariant Weighed(foods, sums, Mentions(signals[..i]), MentionWeights(signals[..i]))
      invariant Counted(counts, Mentions(signals[..i]))
    {
      MentionsStep(signals, i);
      foods, counts, sums := TallyPost(foods, counts, sums, signals[i],
                                       Mentions(signals[..i]), MentionWeights(signals[..i]));
    }
    assert signals[..|signals|] == signals;
    ghost var ms, ws := Mentions(signals), MentionWeights(signals);
    trends := [];
    for t := 0 to |foods|
      invariant trends == TrendsFor(foods[..t], ms, ws)
    {
      var food := foods[t];
      assert foods[..t + 1][..t] == foods[..t];
      trends := trends + [TrendSignal(food, 24, counts[food], sums[food] as real, 0.5, map["US" := 1.0])];
    }
    assert foods[..|foods|] == foods;
  }

  /** One trend per mentioned food, no food twice, every trend mentioned at least once and carrying the
      fixed window, creator velocity and geography. */
  lemma AggregateShape(signals: seq<SocialSignal>)
    ensures var trends := Aggregate(signals);
      (forall i, j :: 0 <= i < j < |trends| ==> trends[i].trend != trends[j].trend)
      && (forall food :: food in Mentions(signals) <==> exists i :: 0 <= i < |trends| && trends[i].trend == food)
      && (forall i :: 0 <= i < |trends| ==>
            trends[i].mentionCount > 0 && trends[i].windowHours == 24 && trends[i].creatorVelocity == 0.5
            && trends[i].geoDistribution == map["US" := 1.0])
  {
    var ms := Mentions(signals);
    var foods := Distinct(ms);
    var trends := Aggregate(signals);
    forall i | 0 <= i < |trends|
      ensures trends[i].mentionCount > 0
    {
      OccurrencesPositive(ms, foods[i]);
    }
    forall food | food in ms
      ensures exists i :: 0 <= i < |trends| && trends[i].trend == food
    {
      var i :| 0 <= i < |foods| && foods[i] == food;
      assert trends[i].trend == food;
    }
  }

  /** The sum of a list of trends' mention counts. */
  function MentionTotal(trends: seq<TrendSignal>): int
  {
    if |trends| == 0 then 0 else MentionTotal(trends[..|trends| - 1]) + trends[|trends| - 1].mentionCount
  }

  lemma {:induction false} MentionTotalOfTrends(foods: seq<string>, ms: seq<string>, ws: seq<int>)
    requires |ws| == |ms|
    ensures MentionTotal(TrendsFor(foods, ms, ws)) == CountsSum(foods, ms)
  {
    if |foods| > 0 {
      var init := foods[..|foods| - 1];
      MentionTotalOfTrends(init, ms, ws);
      assert TrendsFor(foods, ms, ws)[..|foods| - 1] == TrendsFor(init, ms, ws);
    }
  }

  /** The mention counts of all trends add up to the number of food mentions in the posts. */
  lemma AggregateMentionTotal(signals: seq<SocialSignal>)
    ensures MentionTotal(Aggregate(signals)) == |Mentions(signals)|
  {
    var ms := Mentions(signals);
    MentionTotalOfTrends(Distinct(ms), ms, MentionWeights(signals));
    CountsSumDistinct(ms);
  }

  lemma {:induction false} SingleFoodMentions(signals: seq<SocialSignal>, food: string)
    requires forall i :: 0 <= i < |signals| ==> signals[i].foodEntities == [food]
    ensures |Mentions(signals)| == |signals|
    ensures forall i :: 0 <= i < |signals| ==> Mentions(signals)[i] == food
    ensures MentionWeights(signals) == Engagements(signals)
  {
    if |signals| > 0 {
      SingleFoodMentions(signals[..|signals| - 1], food);
    }
  }

  lemma {:induction false} ConstantDistinct(ms: seq<string>, food: string)
    requires |ms| > 0
    requires forall i :: 0 <= i < |ms| ==> ms[i] == food
    ensures Distinct(ms) == [food]
  {
    var n := |ms| - 1;
    if n > 0 {
      ConstantDistinct(ms[..n], food);
    }
  }

  lemma {:induction false} ConstantOccurrences(ms: seq<string>, food: string)
    requires forall i :: 0 <= i < |ms| ==> ms[i] == food
    ensures Occurrences(ms, food) == |ms|
  {
    if |ms| > 0 {
      ConstantOccurrences(ms[..|ms| - 1], food);
    }
  }

  lemma {:induction false} ConstantWeightOf(ms: seq<string>, ws: seq<int>, food: string)
    requires |ws| == |ms|
    requires forall i :: 0 <= i < |ms| ==> ms[i] == food
    ensures WeightOf(ms, ws, food) == IntSum(ws)
  {
    if |ms| > 0 {
      ConstantWeightOf(ms[..|ms| - 1], ws[..|ws| - 1], food);
    }
  }

  /** When every post mentions the same single food, aggregation yields one trend for it, mentioned once
      per post and weighted by the total engagement. */
  lemma SingleFoodAggregate(signals: seq<SocialSignal>, food: string)
    requires |signals| > 0
    requires forall i :: 0 <= i < |signals| ==> signals[i].foodEntities == [food]
    ensures Aggregate(signals)
         == [TrendSignal(food, 24, |signals|, IntSum(Engagements(signals)) as real, 0.5, map["US" := 1.0])]
  {
    SingleFoodMentions(signals, food);
    var ms := Mentions(signals);
    ConstantDistinct(ms, food);
    ConstantOccurrences(ms, food);
    ConstantWeightOf(ms, MentionWeights(signals), food);
  }

  /** The three mock posts add up to 1306 + 1058 + 1660 = 4024. */
  lemma MockEngagementTotal()
    ensures IntSum(Engagements(IngestMockSocialSignals())) == 4024
  {
    var es := Engagements(IngestMockSocialSignals());
    assert es == [1306, 1058, 1660];
    assert es[..2][..1] == [1306] && es[..2] == [1306, 1058];
    assert IntSum([1306]) == 1306;
    assert IntSum([1306, 1058]) == 2364;
  }

  /** The mock posts aggregate to a single nachos trend with three mentions and engagement 4024. */
  lemma MockAggregate()
    ensures Aggregate(IngestMockSocialSignals())
         == [TrendSignal("nachos", 24, 3, 4024.0, 0.5, map["US" := 1.0])]
  {
    SingleFoodAggregate(IngestMockSocialSignals(), "nachos");
    MockEngagementTotal();
  }

  // ---------------------------------------------------------------- pseudo series

  /** `[0] * days`: empty for a negative count. */
  function Zeros(days: int): (r: seq<int>)
    ensures |r| == (if days < 0 then 0 else days) && forall i :: 0 <= i < |r| ==> r[i] == 0
  {
    Copies(0, if days < 0 then 0 else days)
  }

  /** `n` points rising from `base` by `step`. */
  function Rising(base: int, step: int, n: nat): (r: seq<int>)
    ensures |r| == n && forall i :: 0 <= i < n ==> r[i] == base + i * step
  {
    seq(n, i => base + i * step)
  }

  lemma MulLe(i: int, j: int, c: int)
    requires i <= j && c >= 0
    ensures i * c <= j * c
  {
    assert (j - i) * c >= 0;
  }

  /** A non-negative step gives a non-decreasing series, and a zero step a flat one. */
  lemma RisingMonotone(base: int, step: int, n: nat)
    requires step >= 0
    ensures forall i, j :: 0 <= i <= j < n ==> Rising(base, step, n)[i] <= Rising(base, step, n)[j]
    ensures step == 0 ==> forall i :: 0 <= i < n ==> Rising(base, step, n)[i] == base
  {
    forall i, j | 0 <= i <= j < n
      ensures i * step <= j * step
    {
      MulLe(i, j, step);
    }
  }

  /** `social_signals_to_series`: zeros without posts; otherwise `days` points rising from
      base = max(int(total / days), 1) by the constant step int(base * 0.2). */
  function SocialSignalsToSeries(signals: seq<SocialSignal>, days: int): Result<seq<int>>
  {
    if |signals| == 0 then Ok(Zeros(days))
    else if days == 0 then Err(ZeroDivisionError)
    else
      var total := IntSum(Engagements(signals));
      var truncated := Trunc(total as real / days as real);
      var base := if truncated >= 1 then truncated else 1;
      Ok(Rising(base, Trunc(base as real * 0.2), if days < 0 then 0 else days))
  }

  /** The step is a fifth of the base, rounded down. */
  lemma StepIsFifth(base: int)
    requires base >= 1
    ensures Trunc(base as real * 0.2) == base / 5
  {
    var q, r := base / 5, base % 5;
    assert base as real * 0.2 == q as real + r as real / 5.0;
  }

  /** Only posts with zero days fail; otherwise the series has `days` points (none for a negative
      count), and no posts give zeros. */
  lemma SeriesLength(signals: seq<SocialSignal>, days: int)
    ensures SocialSignalsToSeries(signals, days).Err? <==> |signals| > 0 && days == 0
    ensures var r := SocialSignalsToSeries(signals, days);
      r.Ok? ==> |r.value| == (if days < 0 then 0 else days)
    ensures |signals| == 0 ==> SocialSignalsToSeries(signals, days) == Ok(Zeros(days))
  {
  }

  /** With posts, the series starts at a base of at least 1, never decreases, and is flat when the base
      is below 5. */
  lemma SeriesRising(signals: seq<SocialSignal>, days: int)
    requires |signals| > 0 && days > 0
    ensures var s := SocialSignalsToSeries(signals, days).value;
      s[0] >= 1
      && (forall i, j :: 0 <= i <= j < days ==> s[i] <= s[j])
      && (s[0] < 5 ==> forall i :: 0 <= i < days ==> s[i] == s[0])
  {
    var total := IntSum(Engagements(signals));
    var truncated := Trunc(total as real / days as real);
    var base := if truncated >= 1 then truncated else 1;
    StepIsFifth(base);
    RisingMonotone(base, base / 5, days);
  }

  /** For a non-negative total the base is the integer quotient total / days, but at least 1. */
  lemma SeriesBase(signals: seq<SocialSignal>, days: int)
    requires |signals| > 0 && days > 0 && IntSum(Engagements(signals)) >= 0
    ensures var q := IntSum(Engagements(signals)) / days;
      SocialSignalsToSeries(signals, days).value[0] == if q >= 1 then q else 1
  {
    TruncOfQuotient(IntSum(Engagements(signals)), days);
  }

  // ---------------------------------------------------------------- database series padding

  /** The padding of `build_entity_time_series_from_db`: `rows` are the per-day totals the query
      returned in day order. No rows give zeros; fewer rows than days are front-padded with the first. */
  function PadSeries(rows: seq<int>, days: int): seq<int>
  {
    if |rows| == 0 then Zeros(days)
    else if |rows| < days then Copies(rows[0], days - |rows|) + rows
    else rows
  }

  /** With at most `days` rows (the query's LIMIT) the series has exactly `days` points: the rows in
      their order at the end, copies of the first row before them. */
  lemma PadSeriesShape(rows: seq<int>, days: int)
    requires |rows| <= days
    ensures var series := PadSeries(rows, days);
      |series| == days
      && series[days - |rows|..] == rows
      && (forall i :: 0 <= i < days - |rows| ==> series[i] == if |rows| == 0 then 0 else rows[0])
  {
    var series := PadSeries(rows, days);
    if |rows| == 0 {
      assert series[days..] == [];
    } else if |rows| < days {
      assert series[days - |rows|..] == rows;
    }
  }

  // ---------------------------------------------------------------- per-platform momentum

  /** One entry of the platform-momentum dictionary. */
  datatype PlatformScore = PlatformScore(platform: string, velocity: real)

  function Platforms(signals: seq<SocialSignal>): (ps: seq<string>)
    ensures |ps| == |signals| && forall i :: 0 <= i < |signals| ==> ps[i] == signals[i].platform
  {
    seq(|signals|, i requires 0 <= i < |signals| => signals[i].platform)
  }

  /** The engagement total of each platform in `keys`. */
  function PlatformTotals(keys: seq<string>, ps: seq<string>, es: seq<int>): (ts: seq<int>)
    requires |es| == |ps|
    ensures |ts| == |keys| && forall i :: 0 <= i < |keys| ==> ts[i] == WeightOf(ps, es, keys[i])
  {
    seq(|keys|, i requires 0 <= i < |keys| => WeightOf(ps, es, keys[i]))
  }

  /** Each total divided by the largest and rounded to 2 places. */
  function Normalised(keys: seq<string>, totals: seq<int>, m: int): (scores: seq<PlatformScore>)
    requires |totals| == |keys| && m != 0
    ensures |scores| == |keys|
    ensures forall i :: 0 <= i < |keys| ==>
      scores[i] == PlatformScore(keys[i], Round(totals[i] as real / m as real, 2))
  {
    seq(|keys|, i requires 0 <= i < |keys| => PlatformScore(keys[i], Round(totals[i] as real / m as real, 2)))
  }

  /** What `compute_platform_momentum` returns: platforms in order of first post, and division by zero
      when the largest total is 0. */
  function PlatformMomentum(signals: seq<SocialSignal>): Result<seq<PlatformScore>>
  {
    var ps, es := Platforms(signals), Engagements(signals);
    var keys := Distinct(ps);
    if |keys| == 0 then Ok([])
    else
      var totals := PlatformTotals(keys, ps, es);
      var m := IntMax(totals);
      if m == 0 then Err(ZeroDivisionError) else Ok(Normalised(keys, totals, m))
  }

  /** `compute_platform_momentum`: per-platform totals accumulated post by post, then normalised. */
  method ComputePlatformMomentum(signals: seq<SocialSignal>) returns (r: Result<seq<PlatformScore>>)
    ensures r == PlatformMomentum(signals)
  {
    var platforms: seq<string> := [];
    var totals: map<string, int> := map[];
    for i := 0 to |signals|
      invariant Weighed(platforms, totals, Platforms(signals[..i]), Engagements(signals[..i]))
    {
      var s := signals[i];
      var e := Engagement(s);
      assert Platforms(signals[..i + 1]) == Platforms(signals[..i]) + [s.platform];
      assert Engagements(signals[..i + 1]) == Engagements(signals[..i]) + [e];
      platforms, totals := AddWeight(platforms, totals, s.platform, e, Platforms(signals[..i]), Engagements(signals[..i]));
    }
    assert signals[..|signals|] == signals;
    ghost var ps, es := Platforms(signals), Engagements(signals);
    assert Weighed(platforms, totals, ps, es);
    if |platforms| == 0 {
      return Ok([]);
    }
    var values: seq<int> := [];
    for t := 0 to |platforms|
      invariant |values| == t
      invariant forall u :: 0 <= u < t ==> values[u] == WeightOf(ps, es, platforms[u])
    {
      assert platforms[t] in ps;
      values := values + [totals[platforms[t]]];
    }
    assert values == PlatformTotals(platforms, ps, es);
    var maxVal := IntMax(values);
    if maxVal == 0 {
      return Err(ZeroDivisionError);
    }
    r := Ok(Normalised(platforms, values, maxVal));
  }

  /** With non-negative engagement, momentum fails exactly when there are posts and all have zero
      engagement. */
  lemma PlatformMomentumFails(signals: seq<SocialSignal>)
    requires NonNegativeEngagement(signals)
    ensures PlatformMomentum(signals).Err?
        <==> |signals| > 0 && forall i :: 0 <= i < |signals| ==> Engagement(signals[i]) == 0
  {
    var ps, es := Platforms(signals), Engagements(signals);
    var keys := Distinct(ps);
    if |signals| > 0 {
      assert ps[0] in keys;
      var totals := PlatformTotals(keys, ps, es);
      var m := IntMax(totals);
      if m == 0 {
        forall i | 0 <= i < |signals|
          ensures Engagement(signals[i]) == 0
        {
          WeightOfAtLeast(ps, es, i);
          assert ps[i] in keys;
          var t :| 0 <= t < |keys| && keys[t] == ps[i];
          assert totals[t] <= m;
        }
      }
      if forall i :: 0 <= i < |signals| ==> Engagement(signals[i]) == 0 {
        forall t | 0 <= t < |keys|
          ensures totals[t] == 0
        {
          WeightOfZero(ps, es, keys[t]);
        }
      }
    }
  }

  /** A total between 0 and the largest scores between 0.0 and 1.0. */
  lemma ScoreInUnit(total: int, m: int)
    requires 0 <= total <= m && m > 0
    ensures 0.0 <= Round(total as real / m as real, 2) <= 1.0
  {
    DivMonotone(0.0, total as real, m as real);
    DivMonotone(total as real, m as real, m as real);
    RoundWithin(total as real / m as real, 0, 1, 2);
  }

  /** The largest total scores exactly 1.0. */
  lemma ScoreOfMax(m: int)
    requires m != 0
    ensures Round(m as real / m as real, 2) == 1.0
  {
    assert m as real / m as real == 1.0;
    RoundOfInt(1, 2);
  }

  /** With non-negative engagement, every platform total is between 0 and a positive maximum. */
  lemma TotalsWithinMax(signals: seq<SocialSignal>)
    requires NonNegativeEngagement(signals) && |signals| > 0
    requires var ps := Platforms(signals);
      IntMax(PlatformTotals(Distinct(ps), ps, Engagements(signals))) != 0
    ensures var ps := Platforms(signals);
      var totals := PlatformTotals(Distinct(ps), ps, Engagements(signals));
      IntMax(totals) > 0 && forall t :: 0 <= t < |totals| ==> 0 <= totals[t] <= IntMax(totals)
  {
    var ps, es := Platforms(signals), Engagements(signals);
    var keys := Distinct(ps);
    assert ps[0] in keys;
    var totals := PlatformTotals(keys, ps, es);
    forall t | 0 <= t < |keys|
      ensures 0 <= totals[t]
    {
      WeightOfNonNegative(ps, es, keys[t]);
    }
  }

  /** With non-negative engagement and a successful result, there is one score per platform in order of
      first post, every score lies in [0, 1], and the platform with the largest total scores 1.0. */
  lemma PlatformMomentumNormalised(signals: seq<SocialSignal>)
    requires NonNegativeEngagement(signals)
    requires PlatformMomentum(signals).Ok?
    ensures var scores := PlatformMomentum(signals).value;
      var keys := Distinct(Platforms(signals));
      |scores| == |keys|
      && (forall i :: 0 <= i < |scores| ==>
            scores[i].platform == keys[i] && 0.0 <= scores[i].velocity <= 1.0)
      && (|signals| > 0 ==> exists i :: 0 <= i < |scores| && scores[i].velocity == 1.0)
  {
    var ps, es := Platforms(signals), Engagements(signals);
    var keys := Distinct(ps);
    if |signals| > 0 {
      assert ps[0] in keys;
      var totals := PlatformTotals(keys, ps, es);
      var m := IntMax(totals);
      TotalsWithinMax(signals);
      var scores := Normalised(keys, totals, m);
      forall t | 0 <= t < |keys|
        ensures 0.0 <= scores[t].velocity <= 1.0
      {
        ScoreInUnit(totals[t], m);
      }
      var t :| 0 <= t < |totals| && totals[t] == m;
      ScoreOfMax(m);
      assert scores[t].velocity == 1.0;
    }
  }

  /** A platform with a larger total never scores lower. */
  lemma PlatformMomentumOrdered(signals: seq<SocialSignal>, i: nat, j: nat)
    requires NonNegativeEngagement(signals)
    requires PlatformMomentum(signals).Ok?
    requires i < |PlatformMomentum(signals).value| && j < |PlatformMomentum(signals).value|
    requires var ps := Platforms(signals); var keys := Distinct(ps);
      WeightOf(ps, Engagements(signals), keys[i]) <= WeightOf(ps, Engagements(signals), keys[j])
    ensures PlatformMomentum(signals).value[i].velocity <= PlatformMomentum(signals).value[j].velocity
  {
    var ps, es := Platforms(signals), Engagements(signals);
    var keys := Distinct(ps);
    var totals := PlatformTotals(keys, ps, es);
    var m := IntMax(totals);
    WeightOfNonNegative(ps, es, keys[0]);
    assert m > 0;
    DivMonotone(totals[i] as real, totals[j] as real, m as real);
    RoundMonotone(totals[i] as real / m as real, totals[j] as real / m as real, 2);
  }

  // ---------------------------------------------------------------- agreement and leader

  function Velocities(scores: seq<PlatformScore>): (vs: seq<real>)
    ensures |vs| == |scores| && forall i :: 0 <= i < |scores| ==> vs[i] == scores[i].velocity
  {
    seq(|scores|, i requires 0 <= i < |scores| => scores[i].velocity)
  }

  /** The agreement band of a momentum dictionary: 0.5 for at most one platform, otherwise by the spread
      between the largest and the smallest score. */
  function AgreementOf(scores: seq<PlatformScore>): real
  {
    if |scores| <= 1 then 0.5
    else
      var vs := Velocities(scores);
      var diff := MaxOf(vs) - MinOf(vs);
      if diff < 0.2 then 0.85 else if diff < 0.5 then 0.65 else 0.4
  }

  /** `compute_platform_signal_agreement`, failing where the momentum does. */
  function ComputePlatformSignalAgreement(signals: seq<SocialSignal>): (r: Result<real>)
    ensures r.Err? <==> PlatformMomentum(signals).Err?
  {
    match PlatformMomentum(signals)
    case Err(e) => Err(e)
    case Ok(scores) => Ok(AgreementOf(scores))
  }

  /** Every pair of scores lies within `d` of each other. */
  predicate AllWithin(scores: seq<PlatformScore>, d: real)
  {
    forall i, j :: 0 <= i < |scores| && 0 <= j < |scores| ==> scores[i].velocity - scores[j].velocity < d
  }

  /** The bands in terms of pairs of platforms: 0.85 when every pair is closer than 0.2, 0.4 when some
      pair is 0.5 or more apart, and 0.65 in between. */
  lemma AgreementBands(scores: seq<PlatformScore>)
    requires |scores| >= 2
    ensures AgreementOf(scores) == 0.85 <==> AllWithin(scores, 0.2)
    ensures AgreementOf(scores) == 0.65 <==> AllWithin(scores, 0.5) && !AllWithin(scores, 0.2)
    ensures AgreementOf(scores) == 0.4 <==> !AllWithin(scores, 0.5)
  {
    var vs := Velocities(scores);
    var hi, lo := MaxOf(vs), MinOf(vs);
    var i :| 0 <= i < |vs| && vs[i] == hi;
    var j :| 0 <= j < |vs| && vs[j] == lo;
    assert scores[i].velocity - scores[j].velocity == hi - lo;
  }

  /** The index of the first occurrence of `m` in `vs`. */
  function FirstIndexOf(vs: seq<real>, m: real): (i: nat)
    requires m in vs
    ensures i < |vs| && vs[i] == m && forall j :: 0 <= j < i ==> vs[j] != m
  {
    if vs[0] == m then 0
    else
      assert m in vs[1..];
      1 + FirstIndexOf(vs[1..], m)
  }

  /** The position of the first entry of `sorted(..., reverse=True)`: the first score equal to the
      largest (the sort is stable). */
  function TopIndex(vs: seq<real>): (top: nat)
    requires |vs| > 0
    ensures top < |vs| && forall j :: 0 <= j < |vs| ==> vs[j] <= vs[top]
  {
    FirstIndexOf(vs, MaxOf(vs))
  }

  /** The score of the second entry of the sorted list: the largest score other than the one at `top`. */
  function RunnerUp(vs: seq<real>, top: nat): real
    requires |vs| >= 2 && top < |vs|
  {
    MaxOf(vs[..top] + vs[top + 1..])
  }

  /** The runner-up bounds every other score and is one of them. */
  lemma RunnerUpIndex(vs: seq<real>, top: nat) returns (other: nat)
    requires |vs| >= 2 && top < |vs|
    ensures other < |vs| && other != top && vs[other] == RunnerUp(vs, top)
    ensures forall j :: 0 <= j < |vs| && j != top ==> vs[j] <= RunnerUp(vs, top)
  {
    var rest := vs[..top] + vs[top + 1..];
    var second := MaxOf(rest);
    forall j | 0 <= j < |vs| && j != top
      ensures vs[j] <= second
    {
      if j < top { assert rest[j] == vs[j]; } else { assert rest[j - 1] == vs[j]; }
    }
    var k :| 0 <= k < |rest| && rest[k] == second;
    other := if k < top then k else k + 1;
  }

  /** The leader of a momentum dictionary: "unknown" without platforms, the only one, or else "both"
      when the first two entries of the descending sort are within 0.1, and the first one otherwise. */
  function LeaderOf(scores: seq<PlatformScore>): string
  {
    if |scores| == 0 then "unknown"
    else if |scores| == 1 then scores[0].platform
    else
      var vs := Velocities(scores);
      var top := TopIndex(vs);
      if Abs(vs[top] - RunnerUp(vs, top)) < 0.1 then "both" else scores[top].platform
  }

  /** `detect_platform_leader`, failing where the momentum does. */
  function DetectPlatformLeader(signals: seq<SocialSignal>): (r: Result<string>)
    ensures r.Err? <==> PlatformMomentum(signals).Err?
  {
    match PlatformMomentum(signals)
    case Err(e) => Err(e)
    case Ok(scores) => Ok(LeaderOf(scores))
  }

  /** No platform scores above the one at `i`. */
  predicate IsTop(scores: seq<PlatformScore>, i: nat)
    requires i < |scores|
  {
    forall k :: 0 <= k < |scores| ==> scores[k].velocity <= scores[i].velocity
  }

  /** Some platform with the largest score has another platform within 0.1 of it. */
  predicate TopTwoClose(scores: seq<PlatformScore>)
  {
    exists i, j :: 0 <= i < |scores| && 0 <= j < |scores| && i != j && IsTop(scores, i)
      && scores[i].velocity - scores[j].velocity < 0.1
  }

  /** With two or more platforms whose top scores are close, the leader is "both". */
  lemma LeaderWhenClose(scores: seq<PlatformScore>)
    requires |scores| >= 2 && TopTwoClose(scores)
    ensures LeaderOf(scores) == "both"
  {
    var vs := Velocities(scores);
    var top := TopIndex(vs);
    var second := RunnerUp(vs, top);
    var other := RunnerUpIndex(vs, top);
    var i, j :| 0 <= i < |scores| && 0 <= j < |scores| && i != j && IsTop(scores, i)
      && scores[i].velocity - scores[j].velocity < 0.1;
    assert scores[top].velocity <= scores[i].velocity;
    assert vs[i] <= vs[top];
    assert vs[i] == vs[top];
    var near := if j == top then i else j;
    assert near != top;
    assert vs[near] <= second;
    assert vs[top] - vs[near] < 0.1;
    assert 0.0 <= vs[top] - second < 0.1;
  }

  /** With two or more platforms whose top scores are not close, the leader is ahead of every other
      platform by at least 0.1. */
  lemma LeaderWhenApart(scores: seq<PlatformScore>) returns (i: nat)
    requires |scores| >= 2 && !TopTwoClose(scores)
    ensures i < |scores| && LeaderOf(scores) == scores[i].platform
    ensures forall j :: 0 <= j < |scores| && j != i ==> scores[j].velocity + 0.1 <= scores[i].velocity
  {
    var vs := Velocities(scores);
    i := TopIndex(vs);
    var second := RunnerUp(vs, i);
    var other := RunnerUpIndex(vs, i);
    assert IsTop(scores, i);
    if vs[i] - second < 0.1 {
      assert false;
    }
  }

  /** No platforms give "unknown" and one gives its name. With two or more, close top scores give "both";
      otherwise the leader is a platform at least 0.1 ahead of every other one. */
  lemma LeaderCases(scores: seq<PlatformScore>)
    ensures |scores| == 0 ==> LeaderOf(scores) == "unknown"
    ensures |scores| == 1 ==> LeaderOf(scores) == scores[0].platform
    ensures |scores| >= 2 && TopTwoClose(scores) ==> LeaderOf(scores) == "both"
    ensures |scores| >= 2 && !TopTwoClose(scores) ==>
      exists i :: 0 <= i < |scores| && LeaderOf(scores) == scores[i].platform
                  && forall j :: 0 <= j < |scores| && j != i ==> scores[j].velocity + 0.1 <= scores[i].velocity
  {
    if |scores| >= 2 {
      if TopTwoClose(scores) {
        LeaderWhenClose(scores);
      } else {
        var i := LeaderWhenApart(scores);
      }
    }
  }

  /** Momentum {tiktok: 1.0, instagram: 0.95} is strongly aligned and led by both. */
  lemma ExampleAgreementAndLeader()
    ensures var scores := [PlatformScore("tiktok", 1.0), PlatformScore("instagram", 0.95)];
      AgreementOf(scores) == 0.85 && LeaderOf(scores) == "both"
  {
    var scores := [PlatformScore("tiktok", 1.0), PlatformScore("instagram", 0.95)];
    assert TopTwoClose(scores) by {
      assert IsTop(scores, 0) && scores[0].velocity - scores[1].velocity < 0.1;
    }
    LeaderWhenClose(scores);
    AgreementBands(scores);
  }
}

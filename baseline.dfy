/**
  Baseline statistics and the z-score style deviation of a current value against them
  (`compute_baseline_stats`, `compute_deviation_score`, `compute_baseline_and_deviation`).

  numpy's population standard deviation is a square root, which the model does not compute: it is
  passed in as `populationStd`, constrained to be the non-negative root of the population variance.
 */
module Baseline {
  import opened Wrappers
  import opened Numeric
  import Text

  /** The dictionary returned by `compute_baseline_stats`; `note` is None when the history sufficed. */
  datatype BaselineStats = BaselineStats(mean: real, std: real, window: string, note: Option<string>)

  /** The dictionary returned by `compute_baseline_and_deviation`. */
  datatype BaselineReport = BaselineReport(baseline: BaselineStats, currentValue: real, deviationScore: real)

  const MIN_HISTORY: nat := 3
  const FALLBACK_NOTE: string := "Insufficient history; using fallback baseline."

  /** The `f"{len(history)}_points"` tag. */
  function WindowTag(n: nat): (tag: string)
    ensures |tag| > 7 && tag[|tag| - 7..] == "_points"
  {
    Text.NatToString(n) + "_points"
  }

  /** The std that is rounded and reported: a zero std is replaced by 1.0 before rounding. */
  function GuardedStd(populationStd: real): real
  {
    if populationStd == 0.0 then 1.0 else populationStd
  }

  function ComputeBaselineStats(history: seq<real>, populationStd: real): (b: BaselineStats)
    requires IsPopulationStd(history, populationStd)
    ensures b.window == WindowTag(|history|)
    ensures b.note.Some? <==> |history| < MIN_HISTORY
    ensures b.std >= 0.0
  {
    if |history| < MIN_HISTORY then
      BaselineStats(0.0, 1.0, WindowTag(|history|), Some(FALLBACK_NOTE))
    else
      RoundWithin(GuardedStd(populationStd), 0, if populationStd <= 1.0 then 1 else populationStd.Floor + 1, 2);
      BaselineStats(Round(Mean(history), 2), Round(GuardedStd(populationStd), 2), WindowTag(|history|), None)
  }

  /** Fewer than three points give the fallback baseline, whatever the values are. */
  lemma ShortHistoryFallback(history: seq<real>, populationStd: real)
    requires IsPopulationStd(history, populationStd)
    requires |history| < MIN_HISTORY
    ensures ComputeBaselineStats(history, populationStd)
         == BaselineStats(0.0, 1.0, WindowTag(|history|), Some(FALLBACK_NOTE))
  {
  }

  /** With three or more points the mean is the rounded average, which lies within the rounded extremes. */
  lemma BaselineMeanWithin(history: seq<real>, populationStd: real)
    requires IsPopulationStd(history, populationStd)
    requires |history| >= MIN_HISTORY
    ensures var b := ComputeBaselineStats(history, populationStd);
      Round(MinOf(history), 2) <= b.mean <= Round(MaxOf(history), 2)
  {
    MeanWithin(history);
    RoundMonotone(MinOf(history), Mean(history), 2);
    RoundMonotone(Mean(history), MaxOf(history), 2);
  }

  /** A constant history of three or more points has its value (rounded) as mean and 1.0 as std. */
  lemma ConstantHistoryBaseline(history: seq<real>, populationStd: real)
    requires IsPopulationStd(history, populationStd)
    requires |history| >= MIN_HISTORY && Constant(history)
    ensures var b := ComputeBaselineStats(history, populationStd);
      b.mean == Round(history[0], 2) && b.std == 1.0 && b.note == None
  {
    ConstantMeanAndStd(history, populationStd);
    RoundOfInt(1, 2);
  }

  /** A std of at least 0.005 is reported as at least 0.01. */
  lemma ReportedStdPositive(history: seq<real>, populationStd: real)
    requires IsPopulationStd(history, populationStd)
    requires |history| >= MIN_HISTORY && populationStd >= 0.005
    ensures ComputeBaselineStats(history, populationStd).std >= 0.01
  {
    RoundMonotone(0.01, populationStd + 0.005, 2);
    var p := Scale(2);
    assert p == 100.0;
    RoundDef(populationStd, 2, p);
    RoundDef(0.01, 2, p);
    assert (0.01 * p + 0.5).Floor == 1;
    var k := (populationStd * p + 0.5).Floor;
    assert populationStd * p >= 0.5;
    assert k >= 1;
    DivMonotone(1.0, k as real, p);
  }

  /** The zero guard runs before rounding: a std strictly between 0 and 0.005 is reported as 0.0. */
  lemma SmallStdReportedZero(history: seq<real>, populationStd: real)
    requires IsPopulationStd(history, populationStd)
    requires |history| >= MIN_HISTORY && 0.0 < populationStd < 0.005
    ensures ComputeBaselineStats(history, populationStd).std == 0.0
  {
    var p := Scale(2);
    assert p == 100.0;
    RoundDef(populationStd, 2, p);
    assert 0.0 <= populationStd * p + 0.5 < 1.0;
  }

  /** `compute_deviation_score`: `round((current - mean) / std, 2)`, and a zero std raises. */
  function ComputeDeviationScore(currentValue: real, baselineMean: real, baselineStd: real): (r: Result<real>)
    ensures r.Err? <==> baselineStd == 0.0
    ensures r.Err? ==> r.error == ZeroDivisionError
  {
    if baselineStd == 0.0 then Err(ZeroDivisionError)
    else Ok(Round((currentValue - baselineMean) / baselineStd, 2))
  }

  /** For a positive std the deviation is non-decreasing in the current value, and a value at or above
      the mean never has a negative deviation. */
  lemma DeviationMonotone(c1: real, c2: real, mean: real, std: real)
    requires std > 0.0 && c1 <= c2
    ensures ComputeDeviationScore(c1, mean, std).value <= ComputeDeviationScore(c2, mean, std).value
    ensures c1 >= mean ==> ComputeDeviationScore(c1, mean, std).value >= 0.0
  {
    DivMonotone(c1 - mean, c2 - mean, std);
    RoundMonotone((c1 - mean) / std, (c2 - mean) / std, 2);
    if c1 >= mean {
      DivMonotone(0.0, c1 - mean, std);
      RoundMonotone(0.0, (c1 - mean) / std, 2);
      RoundOfInt(0, 2);
    }
  }

  /** The value at the mean has deviation 0. */
  lemma DeviationAtMean(mean: real, std: real)
    requires std != 0.0
    ensures ComputeDeviationScore(mean, mean, std) == Ok(0.0)
  {
    RoundOfInt(0, 2);
  }

  /** `compute_baseline_and_deviation`: the deviation is taken against the rounded baseline. */
  function ComputeBaselineAndDeviation(history: seq<real>, currentValue: real, populationStd: real)
    : (r: Result<BaselineReport>)
    requires IsPopulationStd(history, populationStd)
    ensures r.Err? <==> ComputeBaselineStats(history, populationStd).std == 0.0
    ensures r.Ok? ==> (r.value.currentValue == currentValue
                       && r.value.baseline == ComputeBaselineStats(history, populationStd))
  {
    var b := ComputeBaselineStats(history, populationStd);
    match ComputeDeviationScore(currentValue, b.mean, b.std)
    case Err(e) => Err(e)
    case Ok(d) => Ok(BaselineReport(b, currentValue, d))
  }

  /** A short history scores the current value against mean 0 and std 1. */
  lemma ShortHistoryDeviation(history: seq<real>, currentValue: real, populationStd: real)
    requires IsPopulationStd(history, populationStd)
    requires |history| < MIN_HISTORY
    ensures ComputeBaselineAndDeviation(history, currentValue, populationStd).Ok?
    ensures ComputeBaselineAndDeviation(history, currentValue, populationStd).value.deviationScore
         == Round(currentValue, 2)
  {
    assert (currentValue - 0.0) / 1.0 == currentValue;
  }

  /** A constant history of three or more points scores `current - round(value, 2)`, rounded. */
  lemma ConstantHistoryDeviation(history: seq<real>, currentValue: real, populationStd: real)
    requires IsPopulationStd(history, populationStd)
    requires |history| >= MIN_HISTORY && Constant(history)
    ensures ComputeBaselineAndDeviation(history, currentValue, populationStd)
         == Ok(BaselineReport(ComputeBaselineStats(history, populationStd), currentValue,
                              Round(currentValue - Round(history[0], 2), 2)))
  {
    ConstantHistoryBaseline(history, populationStd);
    var m := Round(history[0], 2);
    assert (currentValue - m) / 1.0 == currentValue - m;
  }

  /** The history [0, 0, 0.01] has a population std of about 0.0047: non-zero, so not replaced by 1.0,
      yet reported as 0.0 after rounding, so the wrapper divides by zero. */
  lemma WrapperDividesByZero(populationStd: real)
    requires IsPopulationStd([0.0, 0.0, 0.01], populationStd)
    ensures ComputeBaselineAndDeviation([0.0, 0.0, 0.01], 1.0, populationStd) == Err(ZeroDivisionError)
  {
    var h := [0.0, 0.0, 0.01];
    var h1, h2 := [0.0], [0.0, 0.0];
    assert h[..2] == h2 && h2[..1] == h1 && h1[..0] == [];
    assert Sum(h1) == 0.0;
    assert Sum(h2) == 0.0;
    assert Sum(h) == 0.01;
    var m := Mean(h);
    assert m == 0.01 / 3.0;
    assert SquaredDeviations(h1, m) == Square(0.0 - m);
    assert SquaredDeviations(h2, m) == Square(0.0 - m) + Square(0.0 - m);
    assert SquaredDeviations(h, m) == Square(0.0 - m) + Square(0.0 - m) + Square(0.01 - m);
    assert Square(0.0 - m) == 1.0 / 90000.0;
    assert Square(0.01 - m) == 4.0 / 90000.0;
    assert Variance(h) == 1.0 / 45000.0;
    assert Square(0.005) == 0.000025;
    assert Square(0.0) == 0.0;
    if populationStd >= 0.005 {
      SquareMonotone(0.005, populationStd);
      assert false;
    }
    SmallStdReportedZero(h, populationStd);
  }

  /** The guard placed after rounding: any std that rounds to 0.0 is replaced by 1.0. */
  function ComputeBaselineStatsGuarded(history: seq<real>, populationStd: real): (b: BaselineStats)
    requires IsPopulationStd(history, populationStd)
    ensures b.std > 0.0
    ensures b.window == WindowTag(|history|)
    ensures b.note.Some? <==> |history| < MIN_HISTORY
  {
    if |history| < MIN_HISTORY then
      BaselineStats(0.0, 1.0, WindowTag(|history|), Some(FALLBACK_NOTE))
    else
      var s := Round(populationStd, 2);
      RoundWithin(populationStd, 0, if populationStd <= 1.0 then 1 else populationStd.Floor + 1, 2);
      BaselineStats(Round(Mean(history), 2), if s == 0.0 then 1.0 else s, WindowTag(|history|), None)
  }

  /** With the guard after rounding the wrapper never divides by zero. */
  function ComputeBaselineAndDeviationGuarded(history: seq<real>, currentValue: real, populationStd: real)
    : (r: Result<BaselineReport>)
    requires IsPopulationStd(history, populationStd)
    ensures r.Ok?
    ensures r.value.baseline == ComputeBaselineStatsGuarded(history, populationStd)
    ensures r.value.currentValue == currentValue
  {
    var b := ComputeBaselineStatsGuarded(history, populationStd);
    match ComputeDeviationScore(currentValue, b.mean, b.std)
    case Err(e) => Err(e)
    case Ok(d) => Ok(BaselineReport(b, currentValue, d))
  }

  /** The guarded version agrees with the original whenever the original does not fail. */
  lemma GuardedAgrees(history: seq<real>, currentValue: real, populationStd: real)
    requires IsPopulationStd(history, populationStd)
    requires ComputeBaselineAndDeviation(history, currentValue, populationStd).Ok?
    ensures ComputeBaselineAndDeviationGuarded(history, currentValue, populationStd)
         == ComputeBaselineAndDeviation(history, currentValue, populationStd)
  {
    if |history| >= MIN_HISTORY && populationStd == 0.0 {
      RoundOfInt(1, 2);
      RoundOfInt(0, 2);
    }
  }
}

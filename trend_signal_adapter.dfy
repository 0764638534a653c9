/**
  The naive adapter from a mock daily series to a trend signal (`mock_series_to_trend_signal`).
 */
module TrendSignalAdapter {
  import opened Wrappers
  import opened Numeric
  import opened Schemas

  /** The `window_hours` argument's default. */
  const DEFAULT_WINDOW_HOURS: int := 24

  const GEO_DISTRIBUTION: map<string, real> := map["US" := 0.7, "CA" := 0.3]

  /** `mock_series_to_trend_signal`: an empty series fails on `series[-1]` before the `max(len, 1)`
      guard can matter. */
  function MockSeriesToTrendSignal(entity: string, series: seq<int>, windowHours: int): Result<TrendSignal>
  {
    if |series| == 0 then Err(IndexError)
    else
      var total := IntSum(series);
      Ok(TrendSignal(entity, windowHours, total, total as real * 0.6,
                     (series[|series| - 1] - series[0]) as real / |series| as real, GEO_DISTRIBUTION))
  }

  /** The adapter fails exactly on the empty series; otherwise the mention count is the series total,
      the weighted engagement is 0.6 times it, and the geography and window are fixed. */
  lemma AdapterShape(entity: string, series: seq<int>, windowHours: int)
    ensures MockSeriesToTrendSignal(entity, series, windowHours).Err? <==> |series| == 0
    ensures |series| == 0 ==> MockSeriesToTrendSignal(entity, series, windowHours).error == IndexError
    ensures var r := MockSeriesToTrendSignal(entity, series, windowHours);
      r.Ok? ==>
        r.value.trend == entity && r.value.windowHours == windowHours
        && r.value.mentionCount == IntSum(series)
        && r.value.weightedEngagement == 0.6 * r.value.mentionCount as real
        && r.value.geoDistribution == map["US" := 0.7, "CA" := 0.3]
  {
  }

  /** The velocity has the sign of last − first, and is 0.0 for a series that ends where it starts. */
  lemma AdapterVelocitySign(entity: string, series: seq<int>, windowHours: int)
    requires |series| > 0
    ensures var v := MockSeriesToTrendSignal(entity, series, windowHours).value.creatorVelocity;
      (v >= 0.0 <==> series[|series| - 1] >= series[0])
      && (series[|series| - 1] == series[0] ==> v == 0.0)
  {
    var d := (series[|series| - 1] - series[0]) as real;
    var n := |series| as real;
    if d >= 0.0 {
      DivMonotone(0.0, d, n);
    } else {
      DivMonotone(d, 0.0, n);
    }
  }
}

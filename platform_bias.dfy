/**
  Platform bias (`adjust_for_platform`, `run_platform_bias_engine`): one trend signal re-read for each
  platform of the profile table, with the confidence scaled by the platform's data maturity, the phase
  overridden by velocity, and an urgency and a recommended action chosen from the phase.
 */
module PlatformBias {
  import opened Wrappers
  import opened Numeric
  import opened Momentum
  import opened PlatformProfiles

  /** The fields of the raw signal the adjustment reads. */
  datatype RawSignal = RawSignal(confidenceScore: real, momentumState: string, velocity: real)

  /** The dictionary returned per platform. */
  datatype PlatformAdjustment = PlatformAdjustment(
    adjustedPhase: string,
    adjustedConfidence: real,
    urgency: string,
    recommendedAction: string)

  const HIGH: string := "HIGH"
  const MEDIUM: string := "MEDIUM"
  const LOW: string := "LOW"

  const ACTION_MAP: map<string, string> := map[
    PEAKING := "Launch promotion immediately",
    EMERGING := "Prepare promo creatives",
    FLAT := "Monitor trend",
    FATIGUED := "Avoid new campaigns"]
  const DEFAULT_ACTION: string := "Monitor"

  /** The phase after the velocity override: a fast trend on a low-latency platform is peaking, a slow
      one is fatigued, anything else keeps its phase. */
  function AdjustedPhase(phase: string, velocity: real, latencyHours: int): string
  {
    if velocity > 0.6 && latencyHours <= 8 then PEAKING
    else if velocity < 0.2 then FATIGUED
    else phase
  }

  function PlatformUrgency(phase: string): string
  {
    if phase == PEAKING then HIGH else if phase == EMERGING then MEDIUM else LOW
  }

  /** `action_map.get(phase, "Monitor")`. */
  function RecommendedAction(phase: string): string
  {
    if phase in ACTION_MAP then ACTION_MAP[phase] else DEFAULT_ACTION
  }

  /** `adjust_for_platform`: a platform missing from the table raises KeyError. */
  function AdjustForPlatform(raw: RawSignal, platform: string): Result<PlatformAdjustment>
  {
    if platform !in PLATFORM_PROFILES then Err(KeyError(platform))
    else
      var profile := PLATFORM_PROFILES[platform];
      var phase := AdjustedPhase(raw.momentumState, raw.velocity, profile.trendLatencyHours);
      Ok(PlatformAdjustment(phase, Round(raw.confidenceScore * profile.dataMaturity, 2),
                            PlatformUrgency(phase), RecommendedAction(phase)))
  }

  /** The lookup fails exactly for a platform outside the table, with KeyError on that name. */
  lemma AdjustForPlatformFails(raw: RawSignal, platform: string)
    ensures AdjustForPlatform(raw, platform).Err? <==> platform !in PLATFORM_PROFILES
    ensures AdjustForPlatform(raw, platform).Err? ==> AdjustForPlatform(raw, platform).error == KeyError(platform)
  {
  }

  /** A velocity below 0.2 gives FATIGUED, LOW and "Avoid new campaigns" on every platform, whatever the
      input phase. */
  lemma SlowTrendIsFatigued(raw: RawSignal, platform: string)
    requires platform in PLATFORM_PROFILES && raw.velocity < 0.2
    ensures var r := AdjustForPlatform(raw, platform).value;
      r.adjustedPhase == FATIGUED && r.urgency == LOW && r.recommendedAction == "Avoid new campaigns"
  {
  }

  /** A velocity above 0.6 forces PEAKING and HIGH on doordash only; on the other platforms it keeps
      the input phase. */
  lemma FastTrend(raw: RawSignal, platform: string)
    requires platform in PLATFORM_PROFILES && raw.velocity > 0.6
    ensures var r := AdjustForPlatform(raw, platform).value;
      (platform == DOORDASH ==> r.adjustedPhase == PEAKING && r.urgency == HIGH)
      && (platform != DOORDASH ==> r.adjustedPhase == raw.momentumState)
  {
    ProfilesShape();
  }

  /** The urgency is HIGH exactly for PEAKING and MEDIUM exactly for EMERGING; an unlisted phase gets
      the "Monitor" action. */
  lemma UrgencyAndAction(phase: string)
    ensures PlatformUrgency(phase) == HIGH <==> phase == PEAKING
    ensures PlatformUrgency(phase) == MEDIUM <==> phase == EMERGING
    ensures phase !in {PEAKING, EMERGING, FLAT, FATIGUED} ==> RecommendedAction(phase) == DEFAULT_ACTION
  {
    assert HIGH[0] == 'H' && MEDIUM[0] == 'M' && LOW[0] == 'L';
  }

  /** With a non-negative raw confidence the adjusted confidence never exceeds the raw confidence
      rounded to the same 2 places, and it is never negative. */
  lemma AdjustedConfidenceBound(raw: RawSignal, platform: string)
    requires platform in PLATFORM_PROFILES && raw.confidenceScore >= 0.0
    ensures var r := AdjustForPlatform(raw, platform).value;
      0.0 <= r.adjustedConfidence <= Round(raw.confidenceScore, 2)
  {
    ProfilesShape();
    var m := PLATFORM_PROFILES[platform].dataMaturity;
    var c := raw.confidenceScore;
    assert c * m <= c * 1.0;
    RoundMonotone(c * m, c, 2);
    RoundMonotone(0.0, c * m, 2);
    RoundOfInt(0, 2);
  }

  /** Rounding can lift the adjusted confidence above the unrounded raw one: 0.039 on uber_eats gives
      0.04. */
  lemma AdjustedConfidenceRoundsUp()
    ensures AdjustForPlatform(RawSignal(0.039, EMERGING, 0.5), UBER_EATS).value.adjustedConfidence == 0.04
  {
    var p := Scale(2);
    assert p == 100.0;
    RoundDef(0.039 * 0.9, 2, p);
    assert (0.039 * 0.9 * p + 0.5).Floor == 4;
  }

  /** `run_platform_bias_engine`: one adjustment per platform of the table, each the adjustment for
      that platform. */
  method RunPlatformBiasEngine(raw: RawSignal) returns (results: map<string, PlatformAdjustment>)
    ensures results.Keys == PLATFORM_PROFILES.Keys
    ensures forall p :: p in results ==> AdjustForPlatform(raw, p) == Ok(results[p])
  {
    ProfilesShape();
    results := map[];
    var i := 0;
    while i < |PLATFORM_ORDER|
      invariant 0 <= i <= |PLATFORM_ORDER|
      invariant results.Keys == set p | p in PLATFORM_ORDER[..i]
      invariant forall p :: p in results ==> AdjustForPlatform(raw, p) == Ok(results[p])
    {
      var platform := PLATFORM_ORDER[i];
      var adjusted := AdjustForPlatform(raw, platform);
      results := results[platform := adjusted.value];
      assert PLATFORM_ORDER[..i + 1] == PLATFORM_ORDER[..i] + [platform];
      i := i + 1;
    }
    assert PLATFORM_ORDER[..i] == PLATFORM_ORDER;
  }
}

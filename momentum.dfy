/**
  Momentum of a series (`compute_velocity`, `compute_acceleration`, `classify_momentum_state`,
  `compute_momentum`): the average relative change over the trailing window, its change between two
  windows, and a phase label chosen from the two.
 */
module Momentum {
  import opened Numeric

  const EMERGING: string := "EMERGING"
  const PEAKING: string := "PEAKING"
  const FATIGUED: string := "FATIGUED"
  const FLAT: string := "FLAT"

  /** The `window` argument's default. */
  const DEFAULT_WINDOW: nat := 3

  /** The relative changes `(curr - prev) / prev` of consecutive points, left to right, skipping every
      pair whose earlier point is 0. */
  function PctChanges(recent: seq<real>): seq<real>
  {
    if |recent| < 2 then []
    else
      var prev, curr := recent[|recent| - 2], recent[|recent| - 1];
      PctChanges(recent[..|recent| - 1]) + (if prev == 0.0 then [] else [(curr - prev) / prev])
  }

  /** The last `window + 1` points, the only ones velocity looks at. */
  function Recent(series: seq<real>, window: nat): seq<real>
    requires |series| >= window + 1
  {
    series[|series| - (window + 1)..]
  }

  /** `compute_velocity`: 0.0 for a series shorter than `window + 1` or when every pair is skipped,
      otherwise the mean relative change over the trailing `window + 1` points, rounded to 3 places. */
  function Velocity(series: seq<real>, window: nat): real
  {
    if |series| < window + 1 then 0.0
    else
      var pct := PctChanges(Recent(series, window));
      if |pct| == 0 then 0.0 else Round(Mean(pct), 3)
  }

  /** Extending the prefix by one point adds at most that pair's relative change. */
  lemma PctChangesStep(recent: seq<real>, i: nat)
    requires 1 <= i < |recent|
    ensures PctChanges(recent[..i + 1])
         == PctChanges(recent[..i]) + (if recent[i - 1] == 0.0 then [] else [(recent[i] - recent[i - 1]) / recent[i - 1]])
  {
    assert recent[..i + 1][..i] == recent[..i];
  }

  /** The loop of `compute_velocity`, building the relative changes one pair at a time. */
  method ComputeVelocity(series: seq<real>, window: nat) returns (v: real)
    ensures v == Velocity(series, window)
  {
    if |series| < window + 1 {
      return 0.0;
    }
    var recent := series[|series| - (window + 1)..];
    var pctChanges: seq<real> := [];
    var i := 1;
    while i < |recent|
      invariant 1 <= i <= |recent|
      invariant pctChanges == PctChanges(recent[..i])
    {
      var prev := recent[i - 1];
      var curr := recent[i];
      PctChangesStep(recent, i);
      if prev != 0.0 {
        pctChanges := pctChanges + [(curr - prev) / prev];
      }
      i := i + 1;
    }
    assert recent[..i] == recent;
    if |pctChanges| == 0 {
      return 0.0;
    }
    v := Round(Mean(pctChanges), 3);
  }

  /** No relative change survives exactly when every earlier point of a pair is 0. */
  lemma {:induction false} PctChangesEmptyIff(recent: seq<real>)
    ensures PctChanges(recent) == [] <==> forall i :: 0 <= i < |recent| - 1 ==> recent[i] == 0.0
  {
    if |recent| >= 2 {
      var init := recent[..|recent| - 1];
      PctChangesEmptyIff(init);
      assert forall i :: 0 <= i < |init| ==> init[i] == recent[i];
    }
  }

  /** A positive non-decreasing run has only non-negative relative changes. */
  lemma {:induction false} PctChangesNonNegative(recent: seq<real>)
    requires forall i :: 0 <= i < |recent| ==> recent[i] > 0.0
    requires forall i :: 0 < i < |recent| ==> recent[i - 1] <= recent[i]
    ensures forall k :: 0 <= k < |PctChanges(recent)| ==> PctChanges(recent)[k] >= 0.0
  {
    if |recent| >= 2 {
      var prev, curr := recent[|recent| - 2], recent[|recent| - 1];
      PctChangesNonNegative(recent[..|recent| - 1]);
      DivMonotone(0.0, curr - prev, prev);
    }
  }

  /** Velocity depends only on the last `window + 1` points. */
  lemma VelocityTrailing(s1: seq<real>, s2: seq<real>, window: nat)
    requires |s1| >= window + 1 && |s2| >= window + 1
    requires Recent(s1, window) == Recent(s2, window)
    ensures Velocity(s1, window) == Velocity(s2, window)
  {
  }

  /** When every skipped-or-not pair in the trailing window starts at 0, velocity is 0.0. */
  lemma VelocityAllPrevZero(series: seq<real>, window: nat)
    requires |series| >= window + 1
    requires forall i :: |series| - (window + 1) <= i < |series| - 1 ==> series[i] == 0.0
    ensures Velocity(series, window) == 0.0
  {
    var recent := Recent(series, window);
    assert forall i :: 0 <= i < |recent| - 1 ==> recent[i] == series[|series| - (window + 1) + i];
    PctChangesEmptyIff(recent);
  }

  /** A positive series that does not fall over its trailing window has a non-negative velocity. */
  lemma VelocityNonNegative(series: seq<real>, window: nat)
    requires forall i :: 0 <= i < |series| ==> series[i] > 0.0
    requires forall i :: 0 < i < |series| ==> series[i - 1] <= series[i]
    ensures Velocity(series, window) >= 0.0
  {
    if |series| >= window + 1 {
      var recent := Recent(series, window);
      var start := |series| - (window + 1);
      assert forall i :: 0 <= i < |recent| ==> recent[i] == series[start + i];
      PctChangesNonNegative(recent);
      var pct := PctChanges(recent);
      if |pct| > 0 {
        MeanBounds(pct, 0.0, MaxOf(pct));
        RoundMonotone(0.0, Mean(pct), 3);
        RoundOfInt(0, 3);
      }
    }
  }

  /** `compute_acceleration`: 0.0 for a series shorter than `2 * window + 1`, otherwise the rounded
      difference between the velocity of the last `window + 1` points and that of the `window` points
      before them. */
  function Acceleration(series: seq<real>, window: nat): real
  {
    if |series| < 2 * window + 1 then 0.0
    else
      var n := |series|;
      var firstWindow := series[n - (2 * window + 1)..n - (window + 1)];
      var secondWindow := series[n - (window + 1)..];
      Round(Velocity(secondWindow, window) - Velocity(firstWindow, window), 3)
  }

  /** The earlier window has only `window` points, so its velocity is always 0.0 and acceleration is
      the trailing velocity again. */
  lemma AccelerationIsVelocity(series: seq<real>, window: nat)
    requires |series| >= 2 * window + 1
    ensures Acceleration(series, window) == Velocity(series, window)
  {
    var n := |series|;
    var secondWindow := series[n - (window + 1)..];
    assert Recent(secondWindow, window) == Recent(series, window);
    VelocityTrailing(secondWindow, series, window);
    var v := Velocity(series, window);
    assert v - 0.0 == v;
    var pct := PctChanges(Recent(series, window));
    if |pct| == 0 {
      RoundOfInt(0, 3);
    } else {
      RoundIdempotent(Mean(pct), 3);
    }
  }

  /** `classify_momentum_state`: the first matching rule wins. */
  function Classify(velocity: real, acceleration: real): (state: string)
    ensures state in {EMERGING, PEAKING, FATIGUED, FLAT}
  {
    if velocity > 0.2 && acceleration > 0.0 then EMERGING
    else if velocity > 0.2 && -0.05 <= acceleration <= 0.05 then PEAKING
    else if velocity > 0.1 && acceleration < 0.0 then FATIGUED
    else FLAT
  }

  /** Each label holds exactly under its own rule and the failure of the earlier ones. */
  lemma ClassifyCases(velocity: real, acceleration: real)
    ensures Classify(velocity, acceleration) == EMERGING <==> velocity > 0.2 && acceleration > 0.0
    ensures Classify(velocity, acceleration) == PEAKING
        <==> velocity > 0.2 && -0.05 <= acceleration <= 0.0
    ensures Classify(velocity, acceleration) == FATIGUED
        <==> velocity > 0.1 && acceleration < 0.0 && !(velocity > 0.2 && acceleration >= -0.05)
    ensures velocity <= 0.1 ==> Classify(velocity, acceleration) == FLAT
  {
  }

  /** The dictionary returned by `compute_momentum`. */
  datatype MomentumResult = MomentumResult(velocity: real, acceleration: real, momentumState: string)

  /** `compute_momentum` with the default window of 3. */
  function ComputeMomentum(series: seq<real>): (r: MomentumResult)
    ensures r.momentumState == Classify(r.velocity, r.acceleration)
  {
    var v := Velocity(series, DEFAULT_WINDOW);
    var a := Acceleration(series, DEFAULT_WINDOW);
    MomentumResult(v, a, Classify(v, a))
  }

  /** Fewer than 4 points: no velocity, no acceleration, FLAT. */
  lemma ShortSeriesFlat(series: seq<real>)
    requires |series| < DEFAULT_WINDOW + 1
    ensures ComputeMomentum(series) == MomentumResult(0.0, 0.0, FLAT)
  {
  }

  /** 4 to 6 points: acceleration is 0.0, so the state is PEAKING exactly when velocity exceeds 0.2,
      and FLAT otherwise. */
  lemma MidSeriesPeakingOrFlat(series: seq<real>)
    requires DEFAULT_WINDOW + 1 <= |series| < 2 * DEFAULT_WINDOW + 1
    ensures ComputeMomentum(series).acceleration == 0.0
    ensures ComputeMomentum(series).momentumState == (if ComputeMomentum(series).velocity > 0.2 then PEAKING else FLAT)
  {
  }

  /** 7 or more points: acceleration equals velocity, so the state is EMERGING or FLAT. */
  lemma LongSeriesEmergingOrFlat(series: seq<real>)
    requires |series| >= 2 * DEFAULT_WINDOW + 1
    ensures var r := ComputeMomentum(series);
      r.acceleration == r.velocity
      && r.momentumState == (if r.velocity > 0.2 then EMERGING else FLAT)
  {
    AccelerationIsVelocity(series, DEFAULT_WINDOW);
  }

  /** `compute_momentum` never labels a series FATIGUED. */
  lemma NeverFatigued(series: seq<real>)
    ensures ComputeMomentum(series).momentumState != FATIGUED
  {
    if |series| >= 2 * DEFAULT_WINDOW + 1 {
      LongSeriesEmergingOrFlat(series);
    }
  }

  lemma ExamplePctChanges()
    ensures PctChanges([21.0, 30.0, 45.0, 70.0]) == [9.0 / 21.0, 15.0 / 30.0, 25.0 / 45.0]
  {
    var recent := [21.0, 30.0, 45.0, 70.0];
    assert recent[..3] == [21.0, 30.0, 45.0] && recent[..3][..2] == [21.0, 30.0];
    assert recent[..3][..2][..1] == [21.0];
    assert PctChanges(recent[..3][..2][..1]) == [];
    assert PctChanges(recent[..3][..2]) == [9.0 / 21.0];
    assert PctChanges(recent[..3]) == [9.0 / 21.0, 15.0 / 30.0];
  }

  lemma ExampleMean()
    ensures Mean([9.0 / 21.0, 15.0 / 30.0, 25.0 / 45.0]) == 187.0 / 378.0
  {
    var pct := [9.0 / 21.0, 15.0 / 30.0, 25.0 / 45.0];
    assert pct[..2] == [9.0 / 21.0, 15.0 / 30.0] && pct[..2][..1] == [9.0 / 21.0] && pct[..2][..1][..0] == [];
    assert Sum(pct[..2][..1]) == 9.0 / 21.0;
    assert Sum(pct[..2]) == 9.0 / 21.0 + 15.0 / 30.0;
    assert Sum(pct) == 187.0 / 126.0;
  }

  lemma ExampleRound()
    ensures Round(187.0 / 378.0, 3) == 0.495
  {
    var p := Scale(3);
    assert p == 1000.0;
    RoundDef(187.0 / 378.0, 3, p);
    assert (187.0 / 378.0 * p + 0.5).Floor == 495;
  }

  /** A worked example: the last four points 21, 30, 45, 70 give velocity 0.495 and EMERGING. */
  lemma ExampleEmerging()
    ensures ComputeMomentum([10.0, 12.0, 15.0, 21.0, 30.0, 45.0, 70.0])
         == MomentumResult(0.495, 0.495, EMERGING)
  {
    var s := [10.0, 12.0, 15.0, 21.0, 30.0, 45.0, 70.0];
    assert Recent(s, 3) == [21.0, 30.0, 45.0, 70.0];
    ExamplePctChanges();
    ExampleMean();
    ExampleRound();
    LongSeriesEmergingOrFlat(s);
  }
}

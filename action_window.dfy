/**
  Action window (`estimate_action_window`, `generate_window_explanation`): how many hours a merchant
  has to act on a trend, from a base per momentum phase scaled by at most one deviation multiplier and
  at most one acceleration multiplier, floored and kept at least 6; an urgency tier; and a short
  explanation. The `velocity` argument is accepted and never read.
 */
module ActionWindow {
  import Text
  import opened Momentum

  const NOW: string := "NOW"
  const SOON: string := "SOON"
  const NORMAL: string := "NORMAL"

  /** The smallest window ever reported. */
  const MIN_HOURS: int := 6

  /** The dictionary returned by `estimate_action_window`. */
  datatype ActionWindowResult = ActionWindowResult(actionWindowHours: int, urgency: string, windowExplanation: string)

  /** The default window of a phase, in hours. */
  function BaseHours(state: string): int
  {
    if state == EMERGING then 72 else if state == PEAKING then 24 else if state == FATIGUED then 8 else 48
  }

  /** The deviation multiplier: a very hot trend burns faster, a mild one lingers. */
  function DeviationMultiplier(deviationScore: real): real
  {
    if deviationScore > 3.0 then 0.7 else if deviationScore < 1.0 then 1.2 else 1.0
  }

  /** The acceleration multiplier: decay has started, or a fast rise saturates fast. */
  function AccelerationMultiplier(acceleration: real): real
  {
    if acceleration < 0.0 then 0.6 else if acceleration > 0.2 then 0.8 else 1.0
  }

  /** The window: the scaled base truncated to whole hours (the product is positive, so `int()` is
      the floor), and never below MIN_HOURS. */
  function WindowHours(state: string, deviationScore: real, acceleration: real): int
  {
    var adjusted := BaseHours(state) as real * DeviationMultiplier(deviationScore) * AccelerationMultiplier(acceleration);
    if adjusted.Floor < MIN_HOURS then MIN_HOURS else adjusted.Floor
  }

  /** The urgency tier of a window. */
  function Urgency(hours: int): string
  {
    if hours <= 18 then NOW else if hours <= 48 then SOON else NORMAL
  }

  /** Every window lies in [6, 86]; the longest is a mild, steady, emerging trend: 72 × 1.2 = 86.4 hours. */
  lemma WindowHoursBounds(state: string, deviationScore: real, acceleration: real)
    ensures MIN_HOURS <= WindowHours(state, deviationScore, acceleration) <= 86
    ensures state == EMERGING && deviationScore < 1.0 && 0.0 <= acceleration <= 0.2 ==>
      WindowHours(state, deviationScore, acceleration) == 86
  {
    var b := BaseHours(state) as real;
    var dm, am := DeviationMultiplier(deviationScore), AccelerationMultiplier(acceleration);
    assert 0.6 <= am <= 1.0 && 0.7 <= dm <= 1.2;
    assert 8.0 <= b <= 72.0;
    assert b * dm <= 72.0 * 1.2 by {
      MulLe(b, 72.0, dm);
      MulLe(dm, 1.2, 72.0);
    }
    assert b * dm * am <= 86.4 by {
      MulLe(am, 1.0, b * dm);
    }
  }

  /** `x ≤ y` and a non-negative factor keep the order. */
  lemma MulLe(x: real, y: real, c: real)
    requires x <= y && c >= 0.0
    ensures x * c <= y * c && c * x <= c * y
  {
  }

  /** A fatigued trend always has to be acted on now; an emerging one never does (its window is at least
      72 × 0.7 × 0.6 = 30.24 hours). */
  lemma UrgencyOfPhase(deviationScore: real, acceleration: real)
    ensures Urgency(WindowHours(FATIGUED, deviationScore, acceleration)) == NOW
    ensures WindowHours(EMERGING, deviationScore, acceleration) >= 30
    ensures Urgency(WindowHours(EMERGING, deviationScore, acceleration)) != NOW
  {
    var dm, am := DeviationMultiplier(deviationScore), AccelerationMultiplier(acceleration);
    assert 0.6 <= am <= 1.0 && 0.7 <= dm <= 1.2;
    assert 8.0 * dm * am <= 9.6 by {
      MulLe(dm, 1.2, 8.0);
      MulLe(am, 1.0, 8.0 * dm);
    }
    assert 72.0 * dm * am >= 30.24 by {
      MulLe(0.7, dm, 72.0);
      MulLe(0.6, am, 72.0 * dm);
    }
  }

  /** A longer window never has a more urgent tier. */
  lemma UrgencyOrdered(h1: int, h2: int)
    requires h1 <= h2
    ensures Urgency(h2) == NOW ==> Urgency(h1) == NOW
    ensures Urgency(h1) == NORMAL ==> Urgency(h2) == NORMAL
    ensures Urgency(h1) in {NOW, SOON, NORMAL}
  {
  }

  function PhaseSentence(state: string): string
  {
    if state == EMERGING then "Trend is in early growth phase"
    else if state == PEAKING then "Trend is near peak attention"
    else if state == FATIGUED then "Trend momentum is declining"
    else "Trend momentum is stable"
  }

  const HYPE_SENTENCE: string := "High spike suggests short-lived hype cycle"
  const SLOWING_SENTENCE: string := "Engagement growth is slowing"

  function WindowSentence(hours: int): string
  {
    "Estimated effective window: ~" + Text.IntToString(hours) + " hours"
  }

  /** The sentences of the window explanation, in order. */
  function WindowExplanationParts(state: string, deviationScore: real, acceleration: real, hours: int): seq<string>
  {
    [PhaseSentence(state)]
    + (if deviationScore > 3.0 then [HYPE_SENTENCE] else [])
    + (if acceleration < 0.0 then [SLOWING_SENTENCE] else [])
    + [WindowSentence(hours)]
  }

  /** `generate_window_explanation`: the sentences appended one by one, joined by ". " with a final ".". */
  method GenerateWindowExplanation(state: string, deviationScore: real, acceleration: real, hours: int)
    returns (text: string)
    ensures text == Text.Join(". ", WindowExplanationParts(state, deviationScore, acceleration, hours)) + "."
  {
    var parts: seq<string> := [PhaseSentence(state)];
    if deviationScore > 3.0 {
      parts := parts + [HYPE_SENTENCE];
    }
    ghost var hype := parts;
    if acceleration < 0.0 {
      parts := parts + [SLOWING_SENTENCE];
    }
    ghost var slowing := parts;
    parts := parts + [WindowSentence(hours)];
    assert hype == [PhaseSentence(state)] + (if deviationScore > 3.0 then [HYPE_SENTENCE] else []);
    assert slowing == hype + (if acceleration < 0.0 then [SLOWING_SENTENCE] else []);
    text := Text.Join(". ", parts) + ".";
  }

  /** The hype sentence is present exactly when the deviation exceeds 3, the slowing sentence exactly
      when acceleration is negative, and the text always ends with the window sentence and ".". */
  lemma WindowExplanationContents(state: string, deviationScore: real, acceleration: real, hours: int)
    ensures var parts := WindowExplanationParts(state, deviationScore, acceleration, hours);
      (HYPE_SENTENCE in parts <==> deviationScore > 3.0)
      && (SLOWING_SENTENCE in parts <==> acceleration < 0.0)
      && 2 <= |parts| <= 4
      && Text.Join(". ", parts) + "."
         == Text.Join(". ", parts[..|parts| - 1]) + ". " + WindowSentence(hours) + "."
  {
    var parts := WindowExplanationParts(state, deviationScore, acceleration, hours);
    var p, w := PhaseSentence(state), WindowSentence(hours);
    assert p[0] == 'T' && w[0] == 'E' && HYPE_SENTENCE[0] == 'H' && SLOWING_SENTENCE[0] == 'E';
    assert w[1] == 's' && SLOWING_SENTENCE[1] == 'n';
    assert parts[..|parts| - 1] + [w] == parts;
    Text.JoinSnoc(". ", parts[..|parts| - 1], w);
  }

  /** The hours part of `estimate_action_window`: the base window rebound by each applicable
      multiplier, then floored at MIN_HOURS. */
  method ComputeWindowHours(state: string, deviationScore: real, acceleration: real) returns (hours: int)
    ensures hours == WindowHours(state, deviationScore, acceleration)
  {
    var baseHours: real;
    if state == EMERGING {
      baseHours := 72.0;
    } else if state == PEAKING {
      baseHours := 24.0;
    } else if state == FATIGUED {
      baseHours := 8.0;
    } else {
      baseHours := 48.0;
    }
    if deviationScore > 3.0 {
      baseHours := baseHours * 0.7;
    } else if deviationScore < 1.0 {
      baseHours := baseHours * 1.2;
    }
    if acceleration < 0.0 {
      baseHours := baseHours * 0.6;
    } else if acceleration > 0.2 {
      baseHours := baseHours * 0.8;
    }
    hours := if baseHours.Floor < MIN_HOURS then MIN_HOURS else baseHours.Floor;
  }

  /** `estimate_action_window`: the base window rebound by each applicable multiplier, floored at 6
      hours, tiered, and explained. `velocity` is not read. */
  method EstimateActionWindow(state: string, velocity: real, acceleration: real, deviationScore: real)
    returns (r: ActionWindowResult)
    ensures r.actionWindowHours == WindowHours(state, deviationScore, acceleration)
    ensures MIN_HOURS <= r.actionWindowHours <= 86
    ensures r.urgency == Urgency(r.actionWindowHours)
    ensures r.windowExplanation
         == Text.Join(". ", WindowExplanationParts(state, deviationScore, acceleration, r.actionWindowHours)) + "."
  {
    var hours := ComputeWindowHours(state, deviationScore, acceleration);
    WindowHoursBounds(state, deviationScore, acceleration);
    var urgency: string;
    if hours <= 18 {
      urgency := NOW;
    } else if hours <= 48 {
      urgency := SOON;
    } else {
      urgency := NORMAL;
    }
    var explanation := GenerateWindowExplanation(state, deviationScore, acceleration, hours);
    r := ActionWindowResult(hours, urgency, explanation);
  }

  /** A peaking trend with acceleration 0.0 and deviation 1.5 gets the plain 24-hour window, SOON. */
  lemma PeakingExample()
    ensures WindowHours(PEAKING, 1.5, 0.0) == 24 && Urgency(WindowHours(PEAKING, 1.5, 0.0)) == SOON
  {
  }
}

/**
  Confidence scoring (`compute_confidence_score`, `generate_explanation`): a weighted score from the
  deviation, the momentum phase, the cross-platform agreement and the context, a risk tier, and a
  sentence-by-sentence explanation. How a float is written inside the explanation (`f"{confidence}"`)
  is not modelled: the caller passes that rendering in as `show`.
 */
module Confidence {
  import opened Wrappers
  import opened Numeric
  import Text
  import opened Momentum

  const LOW: string := "LOW"
  const MEDIUM: string := "MEDIUM"
  const HIGH: string := "HIGH"

  /** The momentum weights; a phase not listed gets DEFAULT_MOMENTUM_WEIGHT. */
  const MOMENTUM_WEIGHTS: map<string, real> :=
    map[EMERGING := 1.0, PEAKING := 0.7, FATIGUED := 0.3, FLAT := 0.1]
  const DEFAULT_MOMENTUM_WEIGHT: real := 0.1

  /** The dictionary returned by `compute_confidence_score`. */
  datatype ConfidenceResult = ConfidenceResult(confidenceScore: real, riskLevel: string, explanation: string)

  /** The deviation scaled by 1/3 and clamped to [0, 1]. */
  function DeviationComponent(deviationScore: real): (c: real)
    ensures 0.0 <= c <= 1.0
  {
    Min(Max(deviationScore / 3.0, 0.0), 1.0)
  }

  /** The clamp: 0 at or below 0, the deviation over 3 in between, 1 from 3 up; never decreasing. */
  lemma DeviationComponentShape(d1: real, d2: real)
    requires d1 <= d2
    ensures DeviationComponent(d1) <= DeviationComponent(d2)
    ensures d1 <= 0.0 ==> DeviationComponent(d1) == 0.0
    ensures d1 >= 3.0 ==> DeviationComponent(d1) == 1.0
    ensures 0.0 <= d1 <= 3.0 ==> DeviationComponent(d1) == d1 / 3.0
  {
    DivMonotone(d1, d2, 3.0);
    if d1 >= 3.0 {
      DivMonotone(3.0, d1, 3.0);
    }
    if d1 <= 0.0 {
      DivMonotone(d1, 0.0, 3.0);
    }
    if 0.0 <= d1 <= 3.0 {
      DivMonotone(d1, 3.0, 3.0);
      DivMonotone(0.0, d1, 3.0);
    }
  }

  /** `momentum_weights.get(state, 0.1)`. */
  function MomentumWeight(state: string): real
  {
    if state in MOMENTUM_WEIGHTS then MOMENTUM_WEIGHTS[state] else DEFAULT_MOMENTUM_WEIGHT
  }

  /** The four listed phases have weights 1.0, 0.7, 0.3 and 0.1; any other text weighs 0.1. */
  lemma MomentumWeightCases(state: string)
    ensures state == EMERGING ==> MomentumWeight(state) == 1.0
    ensures state == PEAKING ==> MomentumWeight(state) == 0.7
    ensures state == FATIGUED ==> MomentumWeight(state) == 0.3
    ensures state !in {EMERGING, PEAKING, FATIGUED} ==> MomentumWeight(state) == 0.1
    ensures 0.1 <= MomentumWeight(state) <= 1.0
  {
  }

  /** The weighted sum before the cap and rounding. */
  function RawConfidence(deviationScore: real, state: string, agreement: real, context: real): real
  {
    0.4 * DeviationComponent(deviationScore) + 0.3 * MomentumWeight(state) + 0.2 * agreement + 0.1 * context
  }

  /** The confidence score: the weighted sum capped at 1.0 and rounded to 3 places. */
  function ConfidenceScore(deviationScore: real, state: string, agreement: real, context: real): real
  {
    Round(Min(RawConfidence(deviationScore, state, agreement, context), 1.0), 3)
  }

  /** The score never exceeds 1.0, and it is at least 0.03 when agreement and context are in [0, 1]
      (the code checks neither range). */
  lemma ConfidenceBounds(deviationScore: real, state: string, agreement: real, context: real)
    ensures ConfidenceScore(deviationScore, state, agreement, context) <= 1.0
    ensures 0.0 <= agreement <= 1.0 && 0.0 <= context <= 1.0 ==>
      0.03 <= ConfidenceScore(deviationScore, state, agreement, context)
  {
    var raw := RawConfidence(deviationScore, state, agreement, context);
    MomentumWeightCases(state);
    RoundMonotone(Min(raw, 1.0), 1.0, 3);
    RoundOfInt(1, 3);
    if 0.0 <= agreement <= 1.0 && 0.0 <= context <= 1.0 {
      assert 0.03 <= Min(raw, 1.0);
      RoundMonotone(0.03, Min(raw, 1.0), 3);
      var p := Scale(3);
      assert p == 1000.0;
      RoundDef(0.03, 3, p);
      assert (0.03 * p + 0.5).Floor == 30;
    }
  }

  /** A larger deviation never lowers the score. */
  lemma ConfidenceMonotoneInDeviation(d1: real, d2: real, state: string, agreement: real, context: real)
    requires d1 <= d2
    ensures ConfidenceScore(d1, state, agreement, context) <= ConfidenceScore(d2, state, agreement, context)
  {
    DeviationComponentShape(d1, d2);
    var r1, r2 := RawConfidence(d1, state, agreement, context), RawConfidence(d2, state, agreement, context);
    assert r1 <= r2;
    RoundMonotone(Min(r1, 1.0), Min(r2, 1.0), 3);
  }

  /** Full marks on every input give the maximum score. */
  lemma ConfidenceFullMarks(deviationScore: real)
    requires deviationScore >= 3.0
    ensures ConfidenceScore(deviationScore, EMERGING, 1.0, 1.0) == 1.0
  {
    DeviationComponentShape(deviationScore, deviationScore);
    RoundOfInt(1, 3);
  }

  /** The risk tier of a confidence score. */
  function RiskLevel(confidence: real): string
  {
    if confidence >= 0.75 then LOW else if confidence >= 0.45 then MEDIUM else HIGH
  }

  /** The tiers follow the order of the score: a higher score never has a higher risk. The
      boundaries fall as 0.75 LOW, 0.45 MEDIUM and 0.449 HIGH. */
  lemma RiskLevelOrdered(c1: real, c2: real)
    requires c1 <= c2
    ensures RiskLevel(c1) == LOW ==> RiskLevel(c2) == LOW
    ensures RiskLevel(c2) == HIGH ==> RiskLevel(c1) == HIGH
    ensures RiskLevel(c1) in {LOW, MEDIUM, HIGH}
    ensures RiskLevel(0.75) == LOW && RiskLevel(0.45) == MEDIUM && RiskLevel(0.449) == HIGH
  {
  }

  function DeviationSentence(deviationScore: real): string
  {
    if deviationScore > 2.0 then "Buzz is significantly above normal baseline"
    else if deviationScore > 1.0 then "Buzz is moderately above baseline"
    else "Buzz is close to normal levels"
  }

  function MomentumSentence(state: string): string
  {
    if state == EMERGING then "Momentum is building rapidly (early trend phase)"
    else if state == PEAKING then "Trend is near peak attention"
    else if state == FATIGUED then "Momentum is slowing down"
    else "Trend momentum is flat"
  }

  function AgreementSentence(agreement: real): string
  {
    if agreement >= 0.75 then "Signals strongly align across platforms"
    else if agreement >= 0.55 then "Signals are moderately aligned across platforms"
    else "Signals diverge across platforms, reducing confidence"
  }

  /** The optional leader sentence: none for a missing or empty leader or "unknown". */
  function LeaderSentence(leader: Option<string>): seq<string>
  {
    match leader
    case None => []
    case Some(l) =>
      if l == "" || l == "unknown" then []
      else if l == "both" then ["Momentum is similar across platforms"]
      else [Text.Capitalize(l) + " is leading this trend"]
  }

  function ContextSentence(context: real): string
  {
    if context > 0.5 then "Context signals support this trend (e.g., holiday/event)"
    else "Context signals provide limited support for this trend"
  }

  function VerdictSentence(confidence: real, risk: string, show: real -> string): string
  {
    "Overall confidence: " + show(confidence) + " (Risk: " + risk + ")"
  }

  /** The sentences of the explanation, in order. */
  function ExplanationParts(deviationScore: real, state: string, agreement: real, context: real,
                            confidence: real, risk: string, leader: Option<string>, show: real -> string)
    : seq<string>
  {
    [DeviationSentence(deviationScore), MomentumSentence(state), AgreementSentence(agreement)]
    + LeaderSentence(leader)
    + [ContextSentence(context), VerdictSentence(confidence, risk, show)]
  }

  /** The leader branch of `generate_explanation`. */
  method AppendLeader(parts: seq<string>, leader: Option<string>) returns (parts': seq<string>)
    ensures parts' == parts + LeaderSentence(leader)
  {
    parts' := parts;
    if leader.Some? && leader.value != "" {
      if leader.value == "both" {
        parts' := parts' + ["Momentum is similar across platforms"];
      } else if leader.value != "unknown" {
        parts' := parts' + [Text.Capitalize(leader.value) + " is leading this trend"];
      }
    }
  }

  /** `generate_explanation`: the sentences appended one by one, joined by ". " with a final ".". */
  method GenerateExplanation(deviationScore: real, state: string, agreement: real, context: real,
                             confidence: real, risk: string, leader: Option<string>, show: real -> string)
    returns (text: string)
    ensures text == Text.Join(". ", ExplanationParts(deviationScore, state, agreement, context,
                                                     confidence, risk, leader, show)) + "."
  {
    var parts: seq<string> := [DeviationSentence(deviationScore), MomentumSentence(state), AgreementSentence(agreement)];
    parts := AppendLeader(parts, leader);
    parts := parts + [ContextSentence(context), VerdictSentence(confidence, risk, show)];
    text := Text.Join(". ", parts) + ".";
  }

  /** Three sentences joined. */
  lemma JoinThree(sep: string, d: string, m: string, a: string)
    ensures Text.Join(sep, [d, m, a]) == d + sep + m + sep + a
  {
    Text.JoinSnoc(sep, [d], m);
    assert [d] + [m] == [d, m];
    Text.JoinSnoc(sep, [d, m], a);
    assert [d, m] + [a] == [d, m, a];
  }

  /** Two more sentences after a non-empty front. */
  lemma JoinTwoMore(sep: string, front: seq<string>, c: string, v: string)
    requires |front| > 0
    ensures Text.Join(sep, front + [c, v]) == Text.Join(sep, front) + sep + c + sep + v
  {
    Text.JoinSnoc(sep, front, c);
    Text.JoinSnoc(sep, front + [c], v);
    assert front + [c] + [v] == front + [c, v];
  }

  /** Five or six sentences joined, written out. */
  lemma JoinSentences(sep: string, d: string, m: string, a: string, ls: seq<string>, c: string, v: string)
    requires |ls| <= 1
    ensures Text.Join(sep, [d, m, a] + ls + [c, v])
         == d + sep + m + sep + a + sep + (if ls == [] then "" else ls[0] + sep) + c + sep + v
  {
    if ls == [] {
      JoinSentencesNoLeader(sep, d, m, a, c, v);
      assert [d, m, a] + ls + [c, v] == [d, m, a] + [c, v];
    } else {
      JoinSentencesWithLeader(sep, d, m, a, ls[0], c, v);
      assert [d, m, a] + ls == [d, m, a] + [ls[0]];
    }
  }

  lemma JoinSentencesNoLeader(sep: string, d: string, m: string, a: string, c: string, v: string)
    ensures Text.Join(sep, [d, m, a] + [c, v]) == d + sep + m + sep + a + sep + "" + c + sep + v
  {
    JoinThree(sep, d, m, a);
    JoinTwoMore(sep, [d, m, a], c, v);
    assert d + sep + m + sep + a + sep + "" == d + sep + m + sep + a + sep;
  }

  lemma JoinSentencesWithLeader(sep: string, d: string, m: string, a: string, l: string, c: string, v: string)
    ensures Text.Join(sep, [d, m, a] + [l] + [c, v]) == d + sep + m + sep + a + sep + (l + sep) + c + sep + v
  {
    JoinThree(sep, d, m, a);
    Text.JoinSnoc(sep, [d, m, a], l);
    JoinTwoMore(sep, [d, m, a] + [l], c, v);
    assert d + sep + m + sep + a + sep + (l + sep) == d + sep + m + sep + a + sep + l + sep;
  }

  /** The explanation written out: the deviation, momentum and agreement sentences, the leader sentence
      when there is one, the context sentence and the verdict, each followed by ". " except the last,
      which ends in ".". */
  lemma ExplanationText(deviationScore: real, state: string, agreement: real, context: real,
                        confidence: real, risk: string, leader: Option<string>, show: real -> string)
    ensures var parts := ExplanationParts(deviationScore, state, agreement, context, confidence, risk, leader, show);
      var leaderText := if LeaderSentence(leader) == [] then "" else LeaderSentence(leader)[0] + ". ";
      Text.Join(". ", parts) + "."
      == DeviationSentence(deviationScore) + ". " + MomentumSentence(state) + ". "
         + AgreementSentence(agreement) + ". " + leaderText + ContextSentence(context) + ". "
         + VerdictSentence(confidence, risk, show) + "."
  {
    JoinSentences(". ", DeviationSentence(deviationScore), MomentumSentence(state), AgreementSentence(agreement),
                  LeaderSentence(leader), ContextSentence(context), VerdictSentence(confidence, risk, show));
  }

  /** The explanation has six sentences exactly when a leader other than "" or "unknown" is given,
      and five otherwise; a named leader other than "both" is capitalized in the fourth. */
  lemma ExplanationLeader(deviationScore: real, state: string, agreement: real, context: real,
                          confidence: real, risk: string, leader: Option<string>, show: real -> string)
    ensures var parts := ExplanationParts(deviationScore, state, agreement, context, confidence, risk, leader, show);
      (|parts| == 6 <==> leader.Some? && leader.value !in {"", "unknown"})
      && (|parts| == 5 <==> !(leader.Some? && leader.value !in {"", "unknown"}))
      && (leader.Some? && leader.value !in {"", "unknown", "both"} ==>
            parts[3] == Text.Capitalize(leader.value) + " is leading this trend")
  {
  }

  /** `compute_confidence_score`. */
  function ComputeConfidenceScore(deviationScore: real, state: string, agreement: real, context: real,
                                  leader: Option<string>, show: real -> string): (r: ConfidenceResult)
    ensures r.confidenceScore <= 1.0
    ensures r.riskLevel == LOW <==> r.confidenceScore >= 0.75
    ensures r.riskLevel == HIGH <==> r.confidenceScore < 0.45
  {
    var c := ConfidenceScore(deviationScore, state, agreement, context);
    ConfidenceBounds(deviationScore, state, agreement, context);
    var risk := RiskLevel(c);
    ConfidenceResult(c, risk,
      Text.Join(". ", ExplanationParts(deviationScore, state, agreement, context, c, risk, leader, show)) + ".")
  }
}

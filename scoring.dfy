/** The deterministic scoring engine: each platform's weighted questions, the
    classification of one answer, the accumulation over the weighted questions
    (`calculateAdvancedScores`), the derived scores and risk level, and the
    templated insight sentence (`generatePersonalizedInsight`).

    Weights, ratios and scores are exact reals; `Math.round` is rounding half
    up and the one-decimal rounding is `Math.round(x * 10) / 10`. The value of
    `Math.random()` that perturbs the mood score is a parameter in [0, 1). */
module Scoring {
  import opened Text
  import opened Responses
  import Platforms

  datatype QuestionWeight = QuestionWeight(
    id: string,
    weight: real,
    positive: seq<string>,
    negative: seq<string>,
    risk: seq<string>)

  datatype RiskLevel = Low | Moderate | High

  /** `Math.round` of a percentage, or NaN when the platform has no weighted
      questions (0 / 0 in JavaScript). */
  datatype Confidence = Percent(value: int) | NotANumber

  datatype ScoringResult = ScoringResult(
    overallScore: real,
    moodScore: real,
    usageScore: real,
    comparisonScore: real,
    riskLevel: RiskLevel,
    confidenceScore: Confidence,
    personalizedInsight: string)

  /** The five running totals of the scoring loop. */
  datatype Tally = Tally(
    weightedScore: real,
    weight: real,
    riskFactors: nat,
    protectiveFactors: nat,
    processed: nat)

  /** What one answer contributes: its question score and whether it counts as
      a risk or a protective factor. */
  datatype Classified = Classified(score: int, isRisk: bool, isProtective: bool)

  // ---------------------------------------------------------------------------
  // The scoring tables

  function Sum(qs: seq<QuestionWeight>): real {
    if qs == [] then 0.0 else Sum(qs[..|qs| - 1]) + qs[|qs| - 1].weight
  }

  lemma SumOfFive(qs: seq<QuestionWeight>)
    requires |qs| == 5
    ensures Sum(qs) == qs[0].weight + qs[1].weight + qs[2].weight + qs[3].weight + qs[4].weight
  {
    assert qs[..4][..3] == qs[..3] && qs[..3][..2] == qs[..2];
    assert qs[..2][..1] == qs[..1] && qs[..1][..0] == [];
    assert Sum(qs) == Sum(qs[..4]) + qs[4].weight;
    assert Sum(qs[..4]) == Sum(qs[..3]) + qs[3].weight;
    assert Sum(qs[..3]) == Sum(qs[..2]) + qs[2].weight;
    assert Sum(qs[..2]) == Sum(qs[..1]) + qs[1].weight;
    assert Sum(qs[..1]) == qs[0].weight;
  }

  predicate Disjoint(a: seq<string>, b: seq<string>) {
    forall v :: v in a ==> v !in b
  }

  /** What the engine relies on in a table: positive weights, non-empty answer
      values (so a matching answer is always truthy), and positive answers that
      are neither negative nor risky. */
  predicate WellFormed(qs: seq<QuestionWeight>) {
    forall i :: 0 <= i < |qs| ==>
      && qs[i].weight > 0.0
      && (forall v :: v in qs[i].positive + qs[i].negative + qs[i].risk ==> v != "")
      && Disjoint(qs[i].positive, qs[i].negative + qs[i].risk)
  }

  /** A table entry, which passes the checks of `WellFormed` on its own. */
  function Weighted(id: string, weight: real, positive: seq<string>, negative: seq<string>, risk: seq<string>): (q: QuestionWeight)
    requires weight > 0.0
    requires forall v :: v in positive + negative + risk ==> v != ""
    requires Disjoint(positive, negative + risk)
    ensures WellFormed([q])
  {
    QuestionWeight(id, weight, positive, negative, risk)
  }

  predicate UniqueIds(qs: seq<QuestionWeight>) {
    forall i, j :: 0 <= i < j < |qs| ==> qs[i].id != qs[j].id
  }

  /** `PLATFORM_SCORING[platform] || []`: five weighted questions whose weights
      sum to one for each known platform, none for any other name. */
  function PlatformScoring(platform: string): (qs: seq<QuestionWeight>)
    ensures Platforms.IsKnown(platform) ==> |qs| == 5 && Sum(qs) == 1.0
    ensures !Platforms.IsKnown(platform) ==> qs == []
    ensures WellFormed(qs) && UniqueIds(qs)
  {
    if platform == "instagram" then InstagramScoring()
    else if platform == "facebook" then FacebookScoring()
    else if platform == "snapchat" then SnapchatScoring()
    else if platform == "twitter" then TwitterScoring()
    else []
  }

  function InstagramScoring(): (qs: seq<QuestionWeight>)
    ensures |qs| == 5 && Sum(qs) == 1.0 && WellFormed(qs) && UniqueIds(qs)
  {
    var qs := [
      Weighted("current_experience", 0.25, ["uplifting"], ["overwhelming"], ["balance", "overwhelming"]),
      Weighted("usage_frequency", 0.20, ["rarely", "occasionally"], ["regularly"], ["regularly"]),
      Weighted("feeling_after", 0.25, ["energized"], ["drained", "distracted"], ["drained"]),
      Weighted("self_image_influence", 0.20, ["not_really"], ["understand_better"], ["understand_better"]),
      Weighted("engagement_importance", 0.10, ["not_important"], ["affected", "track"], ["affected"])
    ];
    SumOfFive(qs);
    qs
  }

  function FacebookScoring(): (qs: seq<QuestionWeight>)
    ensures |qs| == 5 && Sum(qs) == 1.0 && WellFormed(qs) && UniqueIds(qs)
  {
    var qs := [
      Weighted("feeling_after", 0.25, ["connected"], ["anxious", "distracted"], ["anxious"]),
      Weighted("comparing_life", 0.25, ["not_at_all"], ["frequently", "almost_always"], ["almost_always"]),
      Weighted("meaningful_time", 0.20, ["very_often"], ["rarely"], ["rarely"]),
      Weighted("interactions_influence", 0.15, ["not_really"], ["frequently"], ["frequently"]),
      Weighted("support_or_distract", 0.15, ["supports"], ["affects_deeply"], ["affects_deeply"])
    ];
    SumOfFive(qs);
    qs
  }

  function SnapchatScoring(): (qs: seq<QuestionWeight>)
    ensures |qs| == 5 && Sum(qs) == 1.0 && WellFormed(qs) && UniqueIds(qs)
  {
    var qs := [
      Weighted("daily_usage", 0.20, ["less_30min"], ["more_2hours"], ["more_2hours"]),
      Weighted("streak_breaks", 0.25, ["unaffected"], ["upset", "stressed"], ["upset"]),
      Weighted("appearing_perfect", 0.20, ["none"], ["lot"], ["lot"]),
      Weighted("emotional_effect", 0.20, ["happy_connected"], ["drained"], ["drained"]),
      Weighted("impact_goals", 0.15, ["never"], ["often"], ["often"])
    ];
    SumOfFive(qs);
    qs
  }

  function TwitterScoring(): (qs: seq<QuestionWeight>)
    ensures |qs| == 5 && Sum(qs) == 1.0 && WellFormed(qs) && UniqueIds(qs)
  {
    var qs := [
      Weighted("experience", 0.20, ["engaging"], ["intense"], ["intense"]),
      Weighted("feeling_after", 0.25, ["informed"], ["unsettled", "overwhelmed"], ["unsettled"]),
      Weighted("trending_topics", 0.20, ["rarely"], ["very_often"], ["very_often"]),
      Weighted("online_arguments", 0.20, ["not_at_all"], ["significantly"], ["significantly"]),
      Weighted("focus_wellbeing", 0.15, ["helps"], ["affects_significantly"], ["affects_significantly"])
    ];
    SumOfFive(qs);
    qs
  }

  // ---------------------------------------------------------------------------
  // One answer

  /** The score of an answered question: 8 and protective for a positive
      answer; 2 and a risk factor for a risky answer that is not positive
      (whether or not it is also negative); 3 for a negative answer that is not
      risky; 5 for anything else, including a value that is not a string. */
  function Classify(q: QuestionWeight, answer: Value): (c: Classified)
    ensures c.isProtective <==> c.score == 8
    ensures c.isRisk <==> c.score == 2
    ensures c.isProtective <==> InList(q.positive, answer)
    ensures c.isRisk <==> !InList(q.positive, answer) && InList(q.risk, answer)
    ensures c.score == 3 <==> !InList(q.positive, answer) && InList(q.negative, answer) && !InList(q.risk, answer)
    ensures c.score == 5 <==> !InList(q.positive, answer) && !InList(q.negative, answer) && !InList(q.risk, answer)
  {
    if InList(q.positive, answer) then Classified(8, false, true)
    else if InList(q.negative, answer) then
      if InList(q.risk, answer) then Classified(2, true, false) else Classified(3, false, false)
    else if InList(q.risk, answer) then Classified(2, true, false)
    else Classified(5, false, false)
  }

  /** One iteration of the scoring loop. An unanswered question leaves every
      total as it was; an answered one adds its weight, one processed answer,
      at most one factor, and between 2 and 8 times its weight to the weighted
      score. */
  function Step(t: Tally, q: QuestionWeight, responses: ResponseSet): (s: Tally)
    ensures !IsAnswered(responses, q.id) ==> s == t
    ensures IsAnswered(responses, q.id) ==>
      && s.processed == t.processed + 1
      && s.weight == t.weight + q.weight
      && s.riskFactors + s.protectiveFactors <= t.riskFactors + t.protectiveFactors + 1
      && s.riskFactors >= t.riskFactors && s.protectiveFactors >= t.protectiveFactors
    ensures q.weight >= 0.0 ==>
      t.weightedScore + 2.0 * (s.weight - t.weight) <= s.weightedScore <= t.weightedScore + 8.0 * (s.weight - t.weight)
  {
    if !IsAnswered(responses, q.id) then t
    else
      var c := Classify(q, responses[q.id]);
      Tally(t.weightedScore + c.score as real * q.weight,
            t.weight + q.weight,
            t.riskFactors + (if c.isRisk then 1 else 0),
            t.protectiveFactors + (if c.isProtective then 1 else 0),
            t.processed + 1)
  }

  /** The totals after the loop has visited the questions of `qs` in order. */
  function TallyOf(qs: seq<QuestionWeight>, responses: ResponseSet): Tally {
    if qs == [] then Tally(0.0, 0.0, 0, 0, 0)
    else Step(TallyOf(qs[..|qs| - 1], responses), qs[|qs| - 1], responses)
  }

  /** The weighted questions that have a truthy answer, in table order. */
  function AnsweredQuestions(qs: seq<QuestionWeight>, responses: ResponseSet): seq<QuestionWeight> {
    if qs == [] then []
    else AnsweredQuestions(qs[..|qs| - 1], responses)
         + (if IsAnswered(responses, qs[|qs| - 1].id) then [qs[|qs| - 1]] else [])
  }

  predicate PositiveWeights(qs: seq<QuestionWeight>) {
    forall i :: 0 <= i < |qs| ==> qs[i].weight > 0.0
  }

  /** The loop processes exactly the answered questions: one count and one
      weight each, at most one factor each, and a weighted score between 2 and
      8 times the weight seen. */
  lemma {:induction false} TallyCounts(qs: seq<QuestionWeight>, responses: ResponseSet)
    requires PositiveWeights(qs)
    ensures var t := TallyOf(qs, responses);
      && t.processed == |AnsweredQuestions(qs, responses)|
      && t.weight == Sum(AnsweredQuestions(qs, responses))
      && t.riskFactors + t.protectiveFactors <= t.processed
      && (t.weight > 0.0 <==> t.processed > 0)
      && 2.0 * t.weight <= t.weightedScore <= 8.0 * t.weight
      && t.processed <= |qs|
  {
    if qs != [] {
      var init := qs[..|qs| - 1];
      assert PositiveWeights(init);
      TallyCounts(init, responses);
      var a := AnsweredQuestions(init, responses);
      if IsAnswered(responses, qs[|qs| - 1].id) {
        assert (a + [qs[|qs| - 1]])[..|a|] == a;
      } else {
        assert a + [] == a;
      }
    }
  }

  /** The questions of `qs` are all answered exactly when all of them are
      among the answered ones. */
  lemma {:induction false} AllAnsweredIffCount(qs: seq<QuestionWeight>, responses: ResponseSet)
    ensures |AnsweredQuestions(qs, responses)| <= |qs|
    ensures |AnsweredQuestions(qs, responses)| == |qs| <==> forall i :: 0 <= i < |qs| ==> IsAnswered(responses, qs[i].id)
  {
    if qs != [] {
      var init := qs[..|qs| - 1];
      AllAnsweredIffCount(init, responses);
      if |AnsweredQuestions(qs, responses)| == |qs| {
        forall i | 0 <= i < |qs| ensures IsAnswered(responses, qs[i].id) {
          if i < |qs| - 1 { assert qs[i] == init[i]; }
        }
      }
      if forall i :: 0 <= i < |qs| ==> IsAnswered(responses, qs[i].id) {
        forall i | 0 <= i < |init| ensures IsAnswered(responses, init[i].id) {
          assert init[i] == qs[i];
        }
      }
    }
  }

  // ---------------------------------------------------------------------------
  // From the totals to the result

  function Min(a: real, b: real): real { if a <= b then a else b }

  function Max(a: real, b: real): real { if a >= b then a else b }

  /** `Math.max(1, Math.min(10, x))`. */
  function Clamp(x: real): real { Max(1.0, Min(10.0, x)) }

  /** `Math.round`: halves round up. */
  function RoundHalfUp(x: real): (n: int)
    ensures x - 0.5 < n as real <= x + 0.5
  {
    (x + 0.5).Floor
  }

  /** `Math.round(x * 10) / 10`: the nearest tenth, halves up. */
  function RoundTenth(x: real): (r: real)
    ensures x - 0.05 < r <= x + 0.05
    ensures 1.0 <= x <= 10.0 ==> 1.0 <= r <= 10.0
  {
    RoundHalfUp(x * 10.0) as real / 10.0
  }

  lemma RoundTenthMonotone(x: real, y: real)
    requires x <= y
    ensures RoundTenth(x) <= RoundTenth(y)
  {
    assert (x * 10.0 + 0.5).Floor <= (y * 10.0 + 0.5).Floor;
  }

  function BaseScore(t: Tally): real {
    if t.weight > 0.0 then t.weightedScore / t.weight else 5.0
  }

  function Ratio(count: nat, processed: nat): real {
    if processed > 0 then count as real / processed as real else 0.0
  }

  function RiskLevelOf(riskRatio: real, protectiveRatio: real): RiskLevel {
    if riskRatio >= 0.4 then High
    else if protectiveRatio >= 0.6 then Low
    else Moderate
  }

  /** The adjusted overall score: two points off (floored at 1) for high risk,
      one point on (capped at 10) for low risk. */
  function AdjustOverall(level: RiskLevel, base: real): (r: real)
    ensures 1.0 <= base <= 10.0 ==> 1.0 <= r <= 10.0
    ensures level == Moderate ==> r == base
    ensures level == High ==> 1.0 <= r && (base >= 3.0 ==> r == base - 2.0) && (base <= 3.0 ==> r == 1.0)
    ensures level == Low ==> r <= 10.0 && (base <= 9.0 ==> r == base + 1.0) && (base >= 9.0 ==> r == 10.0)
  {
    match level
    case High => Max(1.0, base - 2.0)
    case Low => Min(10.0, base + 1.0)
    case Moderate => base
  }

  function ConfidenceOf(processed: nat, questionCount: nat): Confidence {
    if questionCount == 0 then NotANumber
    else Percent(RoundHalfUp(Min(100.0, processed as real / questionCount as real * 100.0)))
  }

  /** The unrounded adjusted overall score the insight sentence is chosen by. */
  function AdjustedOverall(t: Tally): real {
    AdjustOverall(RiskLevelOf(Ratio(t.riskFactors, t.processed), Ratio(t.protectiveFactors, t.processed)), BaseScore(t))
  }

  /** Everything `calculateAdvancedScores` computes after its loop. */
  function Finish(platform: string, questionCount: nat, t: Tally, random: real): ScoringResult {
    var base := BaseScore(t);
    var riskRatio := Ratio(t.riskFactors, t.processed);
    var protectiveRatio := Ratio(t.protectiveFactors, t.processed);
    var level := RiskLevelOf(riskRatio, protectiveRatio);
    var overall := AdjustOverall(level, base);
    var mood := Clamp(overall + (random - 0.5) * 2.0);
    var usage := Clamp(overall + (if riskRatio > 0.3 then -1.5 else 0.5));
    var comparison := Clamp(overall + (if protectiveRatio > 0.5 then 1.0 else -1.0));
    ScoringResult(
      RoundTenth(overall), RoundTenth(mood), RoundTenth(usage), RoundTenth(comparison),
      level,
      ConfidenceOf(t.processed, questionCount),
      PersonalizedInsight(platform, overall, level, t.riskFactors, t.protectiveFactors))
  }

  /** The result of `calculateAdvancedScores(platform, responses)` when
      `Math.random()` returns `random`. */
  function Scores(platform: string, responses: ResponseSet, random: real): ScoringResult {
    var weights := PlatformScoring(platform);
    Finish(platform, |weights|, TallyOf(weights, responses), random)
  }

  /** The loop of `calculateAdvancedScores`: visits the weighted questions in
      table order and updates the five running totals. */
  method AccumulateResponses(platformWeights: seq<QuestionWeight>, responses: ResponseSet) returns (t: Tally)
    ensures t == TallyOf(platformWeights, responses)
  {
    var totalWeightedScore, totalWeight := 0.0, 0.0;
    var riskFactors, protectiveFactors, processedResponses := 0, 0, 0;
    var i := 0;
    while i < |platformWeights|
      invariant 0 <= i <= |platformWeights|
      invariant TallyOf(platformWeights[..i], responses)
             == Tally(totalWeightedScore, totalWeight, riskFactors, protectiveFactors, processedResponses)
    {
      var question := platformWeights[i];
      assert platformWeights[..i + 1][..i] == platformWeights[..i];
      if IsAnswered(responses, question.id) {
        var userResponse := responses[question.id];
        processedResponses := processedResponses + 1;
        var questionScore := 5;
        if InList(question.positive, userResponse) {
          questionScore := 8;
          protectiveFactors := protectiveFactors + 1;
        } else if InList(question.negative, userResponse) {
          questionScore := 3;
          if InList(question.risk, userResponse) {
            questionScore := 2;
            riskFactors := riskFactors + 1;
          }
        } else if InList(question.risk, userResponse) {
          questionScore := 2;
          riskFactors := riskFactors + 1;
        }
        totalWeightedScore := totalWeightedScore + questionScore as real * question.weight;
        totalWeight := totalWeight + question.weight;
      }
      i := i + 1;
    }
    assert platformWeights[..i] == platformWeights;
    t := Tally(totalWeightedScore, totalWeight, riskFactors, protectiveFactors, processedResponses);
  }

  /** `calculateAdvancedScores`: the weighted questions of the platform, the
      loop over them, then the derived scores. */
  method CalculateAdvancedScores(platform: string, responses: ResponseSet, random: real) returns (result: ScoringResult)
    requires 0.0 <= random < 1.0
    ensures result == Scores(platform, responses, random)
  {
    var platformWeights := PlatformScoring(platform);
    var totals := AccumulateResponses(platformWeights, responses);
    result := DeriveScores(platform, |platformWeights|, totals, random);
  }

  /** The statements of `calculateAdvancedScores` after its loop: base score,
      ratios, risk level, adjusted and auxiliary scores, confidence, insight,
      and the one-decimal rounding of the four scores, assigned one local at a
      time as `calculateAdvancedScores` does. `Finish` is the same computation as one
      expression, which the lemmas about the engine reason about; the
      postcondition is what ties the statements to it. */
  method DeriveScores(platform: string, questionCount: nat, totals: Tally, random: real) returns (result: ScoringResult)
    requires 0.0 <= random < 1.0
    ensures result == Finish(platform, questionCount, totals, random)
  {
    var riskFactors, protectiveFactors, processedResponses := totals.riskFactors, totals.protectiveFactors, totals.processed;
    var riskRatio, protectiveRatio, riskLevel, overallScore := AssessRisk(totals);

    var moodScore := Max(1.0, Min(10.0, overallScore + (random - 0.5) * 2.0));
    var usageScore := Max(1.0, Min(10.0, overallScore + (if riskRatio > 0.3 then -1.5 else 0.5)));
    var comparisonScore := Max(1.0, Min(10.0, overallScore + (if protectiveRatio > 0.5 then 1.0 else -1.0)));

    var confidenceScore := if questionCount == 0 then NotANumber
      else Percent(RoundHalfUp(Min(100.0, processedResponses as real / questionCount as real * 100.0)));

    var personalizedInsight := PersonalizedInsight(platform, overallScore, riskLevel, riskFactors, protectiveFactors);

    result := ScoringResult(
      RoundTenth(overallScore), RoundTenth(moodScore), RoundTenth(usageScore), RoundTenth(comparisonScore),
      riskLevel, confidenceScore, personalizedInsight);
  }

  /** The base score, the two ratios, the risk level and the adjusted overall
      score, computed from the loop's totals. `RiskLevelByCounts` restates the
      level as whole-number thresholds on the counts. */
  method AssessRisk(totals: Tally) returns (riskRatio: real, protectiveRatio: real, riskLevel: RiskLevel, overallScore: real)
    ensures riskRatio == Ratio(totals.riskFactors, totals.processed)
    ensures protectiveRatio == Ratio(totals.protectiveFactors, totals.processed)
    ensures riskLevel == RiskLevelOf(riskRatio, protectiveRatio)
    ensures overallScore == AdjustedOverall(totals)
  {
    var totalWeightedScore, totalWeight := totals.weightedScore, totals.weight;
    var riskFactors, protectiveFactors, processedResponses := totals.riskFactors, totals.protectiveFactors, totals.processed;

    var baseScore := if totalWeight > 0.0 then totalWeightedScore / totalWeight else 5.0;
    riskRatio := if processedResponses > 0 then riskFactors as real / processedResponses as real else 0.0;
    protectiveRatio := if processedResponses > 0 then protectiveFactors as real / processedResponses as real else 0.0;

    riskLevel := Moderate;
    if riskRatio >= 0.4 {
      riskLevel := High;
    } else if protectiveRatio >= 0.6 {
      riskLevel := Low;
    }

    overallScore := baseScore;
    if riskLevel == High {
      overallScore := Max(1.0, baseScore - 2.0);
    } else if riskLevel == Low {
      overallScore := Min(10.0, baseScore + 1.0);
    }
  }

  // ---------------------------------------------------------------------------
  // The insight sentence

  datatype InsightBand = Strength | Balanced | Concern | SignificantImpact

  /** The band of a score: the thresholds 7.5, 5.5 and 3.5 are inclusive
      lower bounds. */
  function BandOf(score: real): (band: InsightBand)
    ensures band == Strength <==> 7.5 <= score
    ensures band == Balanced <==> 5.5 <= score < 7.5
    ensures band == Concern <==> 3.5 <= score < 5.5
    ensures band == SignificantImpact <==> score < 3.5
  {
    if score >= 7.5 then Strength
    else if score >= 5.5 then Balanced
    else if score >= 3.5 then Concern
    else SignificantImpact
  }

  lemma SentenceParts(opening: string, middle: string, count: string, tail: string)
    ensures opening <= opening + middle + count + tail
    ensures Contains(opening + middle + count + tail, middle)
    ensures Contains(opening + middle + count + tail, count)
  {
    ContainsInMiddle(opening + middle, count, tail);
    assert opening + middle + count + tail == opening + middle + (count + tail);
    ContainsInMiddle(opening, middle, count + tail);
    var s := opening + middle + count + tail;
    assert s[..|opening|] == opening;
  }

  // The fixed words of the four insight sentences.
  const StrengthMiddle: string := " usage patterns show strong digital wellness habits. You demonstrate "
  const BalancedMiddle: string := " usage shows a balanced approach with room for improvement. Focus on addressing the "
  const ConcernMiddle: string := " usage patterns indicate several areas of concern. The "
  const ImpactMiddle: string := " usage shows significant impact on your mental health. With "
  const StrengthTail: string := " protective factors that support your mental health."
  const BalancedTail: string := " risk factors identified in your responses."
  const ConcernTail: string := " risk factors suggest it may be impacting your mental wellness more than supporting it."
  const ImpactTail: string := " risk factors present, consider implementing boundaries and seeking additional support."

  /** The words between the platform name and the count, by band. */
  function BandMiddle(band: InsightBand): string {
    match band
    case Strength => StrengthMiddle
    case Balanced => BalancedMiddle
    case Concern => ConcernMiddle
    case SignificantImpact => ImpactMiddle
  }

  /** The words after the count, by band. */
  function BandTail(band: InsightBand): string {
    match band
    case Strength => StrengthTail
    case Balanced => BalancedTail
    case Concern => ConcernTail
    case SignificantImpact => ImpactTail
  }

  /** `generatePersonalizedInsight`: the sentence of the score's band. It
      opens with the capitalised platform name, carries the words of its
      band's sentence, and cites the protective-factor count in the strength
      band, the risk-factor count in the other three. The risk level is passed
      but not used. */
  function PersonalizedInsight(platform: string, score: real, riskLevel: RiskLevel, riskFactors: nat, protectiveFactors: nat): (s: string)
    ensures "Your " + Capitalize(platform) <= s
    ensures Contains(s, BandMiddle(BandOf(score)))
    ensures Contains(s, NatToString(if BandOf(score) == Strength then protectiveFactors else riskFactors))
  {
    var band := BandOf(score);
    var count := NatToString(if band == Strength then protectiveFactors else riskFactors);
    SentenceParts("Your " + Capitalize(platform), BandMiddle(band), count, BandTail(band));
    "Your " + Capitalize(platform) + BandMiddle(band) + count + BandTail(band)
  }
}

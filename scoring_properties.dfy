/** What `calculateAdvancedScores` guarantees about its result: the bounds of
    the four scores, the neutral result when nothing weighted is answered, the
    risk level in terms of the factor counts, the confidence as a completeness
    percentage, and that trading a non-positive answer for a positive one
    never lowers the overall score. */
module ScoringProperties {
  import opened Responses
  import opened Scoring
  import Platforms

  /** What the loop guarantees about its totals: at most one factor per
      processed answer, no more processed answers than questions, weight seen
      exactly when something was processed, and a weighted score between 2 and
      8 times that weight. */
  predicate Plausible(t: Tally, questionCount: nat) {
    && t.riskFactors + t.protectiveFactors <= t.processed <= questionCount
    && (t.weight > 0.0 <==> t.processed > 0)
    && 2.0 * t.weight <= t.weightedScore <= 8.0 * t.weight
  }

  lemma PlausibleTally(qs: seq<QuestionWeight>, responses: ResponseSet)
    requires PositiveWeights(qs)
    ensures Plausible(TallyOf(qs, responses), |qs|)
  {
    TallyCounts(qs, responses);
  }

  lemma WellFormedPositive(qs: seq<QuestionWeight>)
    requires WellFormed(qs)
    ensures PositiveWeights(qs)
  {
    forall i | 0 <= i < |qs| ensures qs[i].weight > 0.0 {
      assert qs[i].weight > 0.0;
    }
  }

  /** The base score is a weighted average of scores between 2 and 8, or 5
      when nothing weighted was answered. */
  lemma BaseScoreBounds(t: Tally, questionCount: nat)
    requires Plausible(t, questionCount)
    ensures 2.0 <= BaseScore(t) <= 8.0
  {
    if t.weight > 0.0 {
      var b := BaseScore(t);
      assert b * t.weight == t.weightedScore;
      MultiplyBoth(b, 2.0, t.weight);
      MultiplyBoth(8.0, b, t.weight);
      assert 2.0 <= b <= 8.0;
    }
  }

  /** Risk precedence in terms of the counts: high when risk factors make up
      at least two fifths of the processed answers (exactly two fifths
      included), otherwise low when protective factors make up at least three
      fifths, otherwise moderate; nothing processed is moderate. */
  lemma RiskLevelByCounts(riskFactors: nat, protectiveFactors: nat, processed: nat)
    ensures var level := RiskLevelOf(Ratio(riskFactors, processed), Ratio(protectiveFactors, processed));
      && (level == High <==> processed > 0 && 5 * riskFactors >= 2 * processed)
      && (level == Low <==> processed > 0 && 5 * riskFactors < 2 * processed && 5 * protectiveFactors >= 3 * processed)
      && (level == Moderate <==> processed == 0 || (5 * riskFactors < 2 * processed && 5 * protectiveFactors < 3 * processed))
  {
    if processed > 0 {
      RatioAtLeast(riskFactors, processed, 2, 5);
      RatioAtLeast(protectiveFactors, processed, 3, 5);
    }
  }

  /** `count / processed >= num / den` exactly when `den * count >= num * processed`. */
  lemma RatioAtLeast(count: nat, processed: nat, num: nat, den: nat)
    requires processed > 0 && den > 0
    ensures Ratio(count, processed) >= num as real / den as real <==> den * count >= num * processed
  {
    var r := count as real / processed as real;
    var q := num as real / den as real;
    assert r * processed as real == count as real;
    assert q * den as real == num as real;
    calc {
      r >= q;
    ==  { MultiplyBoth(r, q, processed as real * den as real); }
      r * (processed as real * den as real) >= q * (processed as real * den as real);
    ==  { assert r * (processed as real * den as real) == count as real * den as real;
          assert q * (processed as real * den as real) == num as real * processed as real; }
      (den * count) as real >= (num * processed) as real;
    }
  }

  lemma MultiplyBoth(a: real, b: real, c: real)
    requires c > 0.0
    ensures a >= b <==> a * c >= b * c
  {
    if a >= b {
      assert (a - b) * c >= 0.0;
    } else {
      assert (b - a) * c > 0.0;
    }
  }

  /** The derived scores lie in [1, 10] (the overall one in [1, 9]), whatever
      `Math.random()` returns; the confidence is a percentage, or NaN when the
      platform has no weighted questions. */
  lemma FinishBounds(platform: string, questionCount: nat, t: Tally, random: real)
    requires Plausible(t, questionCount)
    requires 0.0 <= random < 1.0
    ensures var r := Finish(platform, questionCount, t, random);
      && 1.0 <= r.overallScore <= 9.0
      && 1.0 <= r.moodScore <= 10.0
      && 1.0 <= r.usageScore <= 10.0
      && 1.0 <= r.comparisonScore <= 10.0
      && (questionCount == 0 <==> r.confidenceScore == NotANumber)
      && (questionCount > 0 ==> 0 <= r.confidenceScore.value <= 100)
  {
    BaseScoreBounds(t, questionCount);
    var overall := AdjustedOverall(t);
    assert 1.0 <= overall <= 9.0;
    RoundTenthMonotone(overall, 9.0);
    RoundTenthMonotone(1.0, overall);
    assert RoundTenth(9.0) == 9.0 && RoundTenth(1.0) == 1.0;
    if questionCount > 0 {
      var x := t.processed as real / questionCount as real * 100.0;
      assert 0.0 <= t.processed as real / questionCount as real <= 1.0;
    }
  }

  /** For a known platform the confidence is 20 points per answered weighted
      question, since each table has five. */
  lemma ConfidenceOfFive(processed: nat)
    requires processed <= 5
    ensures ConfidenceOf(processed, 5) == Percent(20 * processed)
  {
    assert processed as real / 5.0 * 100.0 == (20 * processed) as real;
  }

  /** `calculateAdvancedScores` keeps its scores in range, and its confidence is
      20 points per answered weighted question for a known platform and NaN
      for any other. */
  lemma ScoresBounds(platform: string, responses: ResponseSet, random: real)
    requires 0.0 <= random < 1.0
    ensures var r := Scores(platform, responses, random);
      && 1.0 <= r.overallScore <= 9.0
      && 1.0 <= r.moodScore <= 10.0
      && 1.0 <= r.usageScore <= 10.0
      && 1.0 <= r.comparisonScore <= 10.0
      && r.confidenceScore == (if Platforms.IsKnown(platform)
                               then Percent(20 * |AnsweredQuestions(PlatformScoring(platform), responses)|)
                               else NotANumber)
  {
    var qs := PlatformScoring(platform);
    WellFormedPositive(qs);
    TallyCounts(qs, responses);
    FinishBounds(platform, |qs|, TallyOf(qs, responses), random);
    if Platforms.IsKnown(platform) {
      ConfidenceOfFive(TallyOf(qs, responses).processed);
    }
  }

  /** Full confidence exactly when every weighted question of a known platform
      has a truthy answer. */
  lemma ConfidenceFullIffAllAnswered(platform: string, responses: ResponseSet, random: real)
    requires Platforms.IsKnown(platform)
    requires 0.0 <= random < 1.0
    ensures var qs := PlatformScoring(platform);
      Scores(platform, responses, random).confidenceScore == Percent(100)
      <==> forall i :: 0 <= i < |qs| ==> IsAnswered(responses, qs[i].id)
  {
    var qs := PlatformScoring(platform);
    ScoresBounds(platform, responses, random);
    AllAnsweredIffCount(qs, responses);
  }

  lemma {:induction false} NothingAnsweredTally(qs: seq<QuestionWeight>, responses: ResponseSet)
    requires forall i :: 0 <= i < |qs| ==> !IsAnswered(responses, qs[i].id)
    ensures TallyOf(qs, responses) == Tally(0.0, 0.0, 0, 0, 0)
  {
    if qs != [] {
      var init := qs[..|qs| - 1];
      assert forall i :: 0 <= i < |init| ==> init[i] == qs[i];
      NothingAnsweredTally(init, responses);
    }
  }

  /** The derived scores of empty totals: base score 5, both ratios 0,
      moderate risk, overall 5, usage 5.5, comparison 4 and mood within one
      point of 5. */
  lemma NeutralFinish(platform: string, questionCount: nat, random: real)
    requires 0.0 <= random < 1.0
    ensures var r := Finish(platform, questionCount, Tally(0.0, 0.0, 0, 0, 0), random);
      && r.overallScore == 5.0
      && r.riskLevel == Moderate
      && r.usageScore == 5.5
      && r.comparisonScore == 4.0
      && 4.0 <= r.moodScore <= 6.0
  {
    var mood := Clamp(5.0 + (random - 0.5) * 2.0);
    assert 4.0 <= mood < 6.0;
    RoundTenthMonotone(4.0, mood);
    RoundTenthMonotone(mood, 6.0);
    assert RoundTenth(4.0) == 4.0 && RoundTenth(6.0) == 6.0;
    assert RoundTenth(5.0) == 5.0 && RoundTenth(5.5) == 5.5;
  }

  /** With no weighted question answered the result is neutral, and the
      confidence is 0 (NaN for an unknown platform). */
  lemma NeutralWhenNothingAnswered(platform: string, responses: ResponseSet, random: real)
    requires 0.0 <= random < 1.0
    requires var qs := PlatformScoring(platform);
      forall i :: 0 <= i < |qs| ==> !IsAnswered(responses, qs[i].id)
    ensures var r := Scores(platform, responses, random);
      && r.overallScore == 5.0
      && r.riskLevel == Moderate
      && r.usageScore == 5.5
      && r.comparisonScore == 4.0
      && 4.0 <= r.moodScore <= 6.0
      && r.confidenceScore == (if Platforms.IsKnown(platform) then Percent(0) else NotANumber)
  {
    var qs := PlatformScoring(platform);
    NothingAnsweredTally(qs, responses);
    NeutralFinish(platform, |qs|, random);
    if Platforms.IsKnown(platform) {
      ConfidenceOfFive(0);
    }
  }

  // ---------------------------------------------------------------------------
  // Monotonicity

  /** How favourable a risk level is: high below moderate below low. */
  function Rank(level: RiskLevel): nat {
    match level
    case High => 0
    case Moderate => 1
    case Low => 2
  }

  /** `responses[id]` is a truthy answer that is not positive for any weighted
      question with that id, and `better` is a positive answer for each. */
  predicate Upgrade(qs: seq<QuestionWeight>, responses: ResponseSet, id: string, better: string) {
    forall i :: 0 <= i < |qs| && qs[i].id == id ==>
      && IsAnswered(responses, id)
      && !InList(qs[i].positive, responses[id])
      && better in qs[i].positive
      && better != ""
  }

  /** Replacing such an answer by a positive one keeps the processed count and
      the weight, does not lower the weighted score, does not add risk factors
      and does not remove protective ones. */
  lemma {:induction false} TallyUpgrade(qs: seq<QuestionWeight>, responses: ResponseSet, id: string, better: string)
    requires PositiveWeights(qs)
    requires Upgrade(qs, responses, id, better)
    ensures var t, u := TallyOf(qs, responses), TallyOf(qs, responses[id := Str(better)]);
      && u.processed == t.processed
      && u.weight == t.weight
      && u.weightedScore >= t.weightedScore
      && u.riskFactors <= t.riskFactors
      && u.protectiveFactors >= t.protectiveFactors
  {
    if qs != [] {
      var init, q := qs[..|qs| - 1], qs[|qs| - 1];
      assert forall i :: 0 <= i < |init| ==> init[i] == qs[i];
      TallyUpgrade(init, responses, id, better);
      var upgraded := responses[id := Str(better)];
      if q.id == id {
        var old_ := Classify(q, responses[id]);
        var new_ := Classify(q, upgraded[id]);
        assert new_.score == 8 && new_.isProtective && !new_.isRisk;
      } else {
        assert IsAnswered(upgraded, q.id) == IsAnswered(responses, q.id);
        if IsAnswered(responses, q.id) {
          assert upgraded[q.id] == responses[q.id];
        }
      }
    }
  }

  /** The adjusted overall score grows with the base score and with the risk
      level, for a base score in [1, 10]. */
  lemma AdjustOverallMonotone(level: RiskLevel, base: real, level': RiskLevel, base': real)
    requires 1.0 <= base <= base' <= 10.0
    requires Rank(level) <= Rank(level')
    ensures AdjustOverall(level, base) <= AdjustOverall(level', base')
  {
  }

  /** Fewer risk factors and more protective ones, over the same processed
      count, never make the risk level less favourable. */
  lemma RiskLevelImproves(riskFactors: nat, protectiveFactors: nat, riskFactors': nat, protectiveFactors': nat, processed: nat)
    requires riskFactors' <= riskFactors && protectiveFactors <= protectiveFactors'
    ensures Rank(RiskLevelOf(Ratio(riskFactors, processed), Ratio(protectiveFactors, processed)))
         <= Rank(RiskLevelOf(Ratio(riskFactors', processed), Ratio(protectiveFactors', processed)))
  {
    RiskLevelByCounts(riskFactors, protectiveFactors, processed);
    RiskLevelByCounts(riskFactors', protectiveFactors', processed);
  }

  /** Over the same weight, a larger weighted score is a larger base score. */
  lemma BaseScoreImproves(t: Tally, u: Tally)
    requires u.weight == t.weight && t.weightedScore <= u.weightedScore
    ensures BaseScore(t) <= BaseScore(u)
  {
    if t.weight > 0.0 {
      assert BaseScore(t) * t.weight == t.weightedScore;
      assert BaseScore(u) * t.weight == u.weightedScore;
      MultiplyBoth(BaseScore(u), BaseScore(t), t.weight);
    }
  }

  /** Trading a non-positive answer for a positive one never lowers the
      unrounded overall score and never makes the risk level less favourable. */
  lemma UpgradeTallyEffect(qs: seq<QuestionWeight>, responses: ResponseSet, id: string, better: string)
    requires PositiveWeights(qs)
    requires Upgrade(qs, responses, id, better)
    ensures var t, u := TallyOf(qs, responses), TallyOf(qs, responses[id := Str(better)]);
      && Rank(RiskLevelOf(Ratio(t.riskFactors, t.processed), Ratio(t.protectiveFactors, t.processed)))
         <= Rank(RiskLevelOf(Ratio(u.riskFactors, u.processed), Ratio(u.protectiveFactors, u.processed)))
      && AdjustedOverall(t) <= AdjustedOverall(u)
  {
    var t, u := TallyOf(qs, responses), TallyOf(qs, responses[id := Str(better)]);
    TallyUpgrade(qs, responses, id, better);
    PlausibleTally(qs, responses);
    PlausibleTally(qs, responses[id := Str(better)]);
    BaseScoreBounds(t, |qs|);
    BaseScoreBounds(u, |qs|);
    BaseScoreImproves(t, u);
    RiskLevelImproves(t.riskFactors, t.protectiveFactors, u.riskFactors, u.protectiveFactors, t.processed);
    AdjustOverallMonotone(
      RiskLevelOf(Ratio(t.riskFactors, t.processed), Ratio(t.protectiveFactors, t.processed)), BaseScore(t),
      RiskLevelOf(Ratio(u.riskFactors, u.processed), Ratio(u.protectiveFactors, u.processed)), BaseScore(u));
  }

  /** For a fixed platform, replacing a negative, risky or neutral answer to a
      weighted question by a positive one never decreases the reported overall
      score, and moves the risk level only towards low. */
  lemma UpgradeNeverLowersOverall(platform: string, responses: ResponseSet, id: string, better: string, random: real)
    requires Upgrade(PlatformScoring(platform), responses, id, better)
    ensures var before, after := Scores(platform, responses, random), Scores(platform, responses[id := Str(better)], random);
      && before.overallScore <= after.overallScore
      && Rank(before.riskLevel) <= Rank(after.riskLevel)
  {
    var qs := PlatformScoring(platform);
    WellFormedPositive(qs);
    UpgradeTallyEffect(qs, responses, id, better);
    RoundTenthMonotone(AdjustedOverall(TallyOf(qs, responses)), AdjustedOverall(TallyOf(qs, responses[id := Str(better)])));
  }
}

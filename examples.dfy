/** Two complete Instagram submissions worked through the engine: one that
    picks a risky option for every weighted question, and one that picks the
    protective option for every weighted question. */
module Examples {
  import opened Responses
  import opened Scoring
  import Recommendations

  const RiskyInstagram: ResponseSet := map[
    "current_experience" := Str("overwhelming"),
    "usage_frequency" := Str("regularly"),
    "feeling_after" := Str("drained"),
    "self_image_influence" := Str("understand_better"),
    "engagement_importance" := Str("affected")]

  const PositiveInstagram: ResponseSet := map[
    "current_experience" := Str("uplifting"),
    "usage_frequency" := Str("rarely"),
    "feeling_after" := Str("energized"),
    "self_image_influence" := Str("not_really"),
    "engagement_importance" := Str("not_important")]

  /** When every weighted question has a risky answer, each scores 2 and
      counts as a risk factor. */
  lemma {:induction false} AllRiskyTally(qs: seq<QuestionWeight>, responses: ResponseSet)
    requires forall i :: 0 <= i < |qs| ==> IsAnswered(responses, qs[i].id) && Classify(qs[i], responses[qs[i].id]).isRisk
    ensures TallyOf(qs, responses) == Tally(2.0 * Sum(qs), Sum(qs), |qs|, 0, |qs|)
  {
    if qs != [] {
      AllRiskyTally(qs[..|qs| - 1], responses);
    }
  }

  /** When every weighted question has a protective answer, each scores 8 and
      counts as a protective factor. */
  lemma {:induction false} AllProtectiveTally(qs: seq<QuestionWeight>, responses: ResponseSet)
    requires forall i :: 0 <= i < |qs| ==> IsAnswered(responses, qs[i].id) && Classify(qs[i], responses[qs[i].id]).isProtective
    ensures TallyOf(qs, responses) == Tally(8.0 * Sum(qs), Sum(qs), 0, |qs|, |qs|)
  {
    if qs != [] {
      AllProtectiveTally(qs[..|qs| - 1], responses);
    }
  }

  lemma RiskyInstagramTally()
    ensures TallyOf(InstagramScoring(), RiskyInstagram) == Tally(2.0, 1.0, 5, 0, 5)
  {
    AllRiskyTally(InstagramScoring(), RiskyInstagram);
  }

  /** High risk, the overall score floored at 1 (a base of 2 less the two
      points of the high-risk adjustment), and a full confidence. */
  lemma RiskyInstagramScores(random: real)
    requires 0.0 <= random < 1.0
    ensures var r := Scores("instagram", RiskyInstagram, random);
      && r.riskLevel == High
      && r.overallScore == 1.0
      && r.usageScore == 1.0
      && r.comparisonScore == 1.0
      && r.confidenceScore == Percent(100)
  {
    RiskyInstagramTally();
    RiskyInstagramFinish(random);
    assert Scores("instagram", RiskyInstagram, random) == Finish("instagram", 5, Tally(2.0, 1.0, 5, 0, 5), random);
  }

  lemma RiskyInstagramFinish(random: real)
    requires 0.0 <= random < 1.0
    ensures var r := Finish("instagram", 5, Tally(2.0, 1.0, 5, 0, 5), random);
      && r.riskLevel == High
      && r.overallScore == 1.0
      && r.usageScore == 1.0
      && r.comparisonScore == 1.0
      && r.confidenceScore == Percent(100)
  {
    var t := Tally(2.0, 1.0, 5, 0, 5);
    assert BaseScore(t) == 2.0;
    assert Ratio(5, 5) == 1.0 && Ratio(0, 5) == 0.0;
    assert RiskLevelOf(1.0, 0.0) == High && AdjustOverall(High, 2.0) == 1.0;
  }

  /** The time-limit and mindful-break advice, both urgent, in rule order,
      ahead of the engagement-pressure advice. */
  lemma RiskyInstagramRecommendations()
    ensures Recommendations.Recommend("instagram", RiskyInstagram, High) == [
      Recommendations.TimeLimitAdvice("instagram", High),
      Recommendations.MindfulBreakAdvice,
      Recommendations.EngagementPressureAdvice]
  {
    var time := Recommendations.TimeLimitAdvice("instagram", High);
    var rs := Recommendations.Rules("instagram", RiskyInstagram, High);
    assert rs[0].fires && rs[1].fires && !rs[2].fires && rs[3].fires && !rs[4].fires;
    Recommendations.PushedFive(rs);
    assert Recommendations.Fired("instagram", RiskyInstagram, High)
      == [time, Recommendations.MindfulBreakAdvice, Recommendations.EngagementPressureAdvice];
    SortedThree(time, Recommendations.MindfulBreakAdvice, Recommendations.EngagementPressureAdvice);
  }

  /** Three entries already in priority order stay where they are. */
  lemma SortedThree(a: Recommendations.Recommendation, b: Recommendations.Recommendation, c: Recommendations.Recommendation)
    requires a.priority <= b.priority <= c.priority
    ensures Recommendations.SortByPriority([a, b, c]) == [a, b, c]
  {
    assert [a, b, c][..2] == [a, b];
    SortedTwo(a, b);
    assert Recommendations.Insert([a, b], c) == [a, b, c];
  }

  lemma SortedTwo(a: Recommendations.Recommendation, b: Recommendations.Recommendation)
    requires a.priority <= b.priority
    ensures Recommendations.SortByPriority([a, b]) == [a, b]
  {
    assert [a, b][..1] == [a] && [a][..0] == [];
    assert Recommendations.SortByPriority([a]) == [a];
    assert Recommendations.Insert([a], b) == [a, b];
  }

  lemma PositiveInstagramTally()
    ensures TallyOf(InstagramScoring(), PositiveInstagram) == Tally(8.0, 1.0, 0, 5, 5)
  {
    AllProtectiveTally(InstagramScoring(), PositiveInstagram);
  }

  /** Low risk and an overall score of 9: the base of 8 plus the bonus of
      one. */
  lemma PositiveInstagramScores(random: real)
    requires 0.0 <= random < 1.0
    ensures var r := Scores("instagram", PositiveInstagram, random);
      && r.riskLevel == Low
      && r.overallScore == 9.0
      && r.usageScore == 9.5
      && r.comparisonScore == 10.0
      && r.confidenceScore == Percent(100)
  {
    PositiveInstagramTally();
    PositiveInstagramFinish(random);
    assert Scores("instagram", PositiveInstagram, random) == Finish("instagram", 5, Tally(8.0, 1.0, 0, 5, 5), random);
  }

  lemma PositiveInstagramFinish(random: real)
    requires 0.0 <= random < 1.0
    ensures var r := Finish("instagram", 5, Tally(8.0, 1.0, 0, 5, 5), random);
      && r.riskLevel == Low
      && r.overallScore == 9.0
      && r.usageScore == 9.5
      && r.comparisonScore == 10.0
      && r.confidenceScore == Percent(100)
  {
    var t := Tally(8.0, 1.0, 0, 5, 5);
    assert BaseScore(t) == 8.0;
    assert Ratio(0, 5) == 0.0 && Ratio(5, 5) == 1.0;
    assert RiskLevelOf(0.0, 1.0) == Low && AdjustOverall(Low, 8.0) == 9.0;
  }

  /** No rule fires, so there is no recommendation at all. */
  lemma PositiveInstagramRecommendations()
    ensures Recommendations.Recommend("instagram", PositiveInstagram, Low) == []
  {
    var rs := Recommendations.Rules("instagram", PositiveInstagram, Low);
    assert !rs[0].fires && !rs[1].fires && !rs[2].fires && !rs[3].fires && !rs[4].fires;
    Recommendations.PushedFive(rs);
  }
}

/** The analysis the server returns for a submitted assessment
    (`analyzeAssessmentResponses`): the engine's scores and recommendations,
    with a key insight that a language-model reply may replace, and the
    keyword-ratio fallback scorer `generateFallbackAnalysis`.

    The request to the language model is not modelled; what came back is an
    `Enrichment` input. */
module Analysis {
  import opened Text
  import opened Responses
  import opened Scoring
  import Recommendations
  import ScoringProperties

  datatype Option<T> = None | Some(value: T)

  /** A recommendation as the client receives it: the engine's record without
      its priority. */
  datatype RecommendationItem = RecommendationItem(
    title: string,
    description: string,
    category: Recommendations.Category,
    impact: Recommendations.Impact,
    actionable: bool)

  datatype AssessmentAnalysis = AssessmentAnalysis(
    overallScore: real,
    moodScore: real,
    usageScore: real,
    comparisonScore: real,
    keyInsight: string,
    recommendations: seq<RecommendationItem>,
    riskLevel: RiskLevel,
    confidenceScore: Option<Confidence>)

  /** The outcome of asking the language model for a key insight: the request
      or the parsing of its reply failed (the `catch` path), or the reply was
      parsed and its `keyInsight` field is absent or a string. */
  datatype Enrichment = Failed | Replied(keyInsight: Option<string>)

  // ---------------------------------------------------------------------------
  // Result assembly

  function ToItem(r: Recommendations.Recommendation): RecommendationItem {
    RecommendationItem(r.title, r.description, r.category, r.impact, r.actionable)
  }

  /** `mlRecommendations.map(...)`. */
  function ToItems(recs: seq<Recommendations.Recommendation>): seq<RecommendationItem> {
    seq(|recs|, i requires 0 <= i < |recs| => ToItem(recs[i]))
  }

  /** `result.keyInsight || mlScoring.personalizedInsight` on the success path,
      `mlScoring.personalizedInsight` on the error path. */
  function KeyInsight(ml: ScoringResult, enrichment: Enrichment): string {
    match enrichment
    case Failed => ml.personalizedInsight
    case Replied(None) => ml.personalizedInsight
    case Replied(Some(s)) => if s != "" then s else ml.personalizedInsight
  }

  /** The object both paths of `analyzeAssessmentResponses` return. */
  function Assemble(ml: ScoringResult, recs: seq<Recommendations.Recommendation>, enrichment: Enrichment): AssessmentAnalysis {
    AssessmentAnalysis(
      ml.overallScore, ml.moodScore, ml.usageScore, ml.comparisonScore,
      KeyInsight(ml, enrichment),
      ToItems(recs),
      ml.riskLevel,
      Some(ml.confidenceScore))
  }

  /** `analyzeAssessmentResponses(platform, responses)` when `Math.random()`
      returns `random` and the language model answers with `enrichment`. */
  function AnalyzeAssessmentResponses(platform: string, responses: ResponseSet, random: real, enrichment: Enrichment): (a: AssessmentAnalysis)
    ensures var ml := Scores(platform, responses, random);
      && a.overallScore == ml.overallScore && a.moodScore == ml.moodScore
      && a.usageScore == ml.usageScore && a.comparisonScore == ml.comparisonScore
      && a.riskLevel == ml.riskLevel
      && a.confidenceScore == Some(ml.confidenceScore)
      && |a.recommendations| == |Recommendations.Recommend(platform, responses, ml.riskLevel)|
      && a.recommendations == ToItems(Recommendations.Recommend(platform, responses, ml.riskLevel))
      && (a.keyInsight == ml.personalizedInsight || (enrichment.Replied? && enrichment.keyInsight == Some(a.keyInsight)))
      && (a.keyInsight != ml.personalizedInsight ==> a.keyInsight != "")
      && (enrichment.Replied? && enrichment.keyInsight.Some? && enrichment.keyInsight.value != ""
          ==> a.keyInsight == enrichment.keyInsight.value)
  {
    var ml := Scores(platform, responses, random);
    Assemble(ml, Recommendations.Recommend(platform, responses, ml.riskLevel), enrichment)
  }

  /** Whatever the language model does, the analyses agree on everything but
      the key insight, and the error path is the path of an empty reply. */
  lemma OnlyInsightDiffers(ml: ScoringResult, recs: seq<Recommendations.Recommendation>, e1: Enrichment, e2: Enrichment)
    ensures Assemble(ml, recs, e1).(keyInsight := "") == Assemble(ml, recs, e2).(keyInsight := "")
    ensures Assemble(ml, recs, Failed) == Assemble(ml, recs, Replied(None))
    ensures Assemble(ml, recs, Failed) == Assemble(ml, recs, Replied(Some("")))
  {
  }

  /** The scores, the risk level, the confidence and the recommendation
      items are the engine's on both paths; the key insight is the reply when that is a non-empty string and
      the engine's sentence otherwise. */
  lemma EngineDecides(ml: ScoringResult, recs: seq<Recommendations.Recommendation>, enrichment: Enrichment)
    ensures var a := Assemble(ml, recs, enrichment);
      && a.overallScore == ml.overallScore
      && a.moodScore == ml.moodScore
      && a.usageScore == ml.usageScore
      && a.comparisonScore == ml.comparisonScore
      && a.riskLevel == ml.riskLevel
      && a.confidenceScore == Some(ml.confidenceScore)
      && a.recommendations == ToItems(recs)
      && (a.keyInsight == ml.personalizedInsight || (enrichment.Replied? && enrichment.keyInsight == Some(a.keyInsight)))
      && (a.keyInsight != ml.personalizedInsight ==> a.keyInsight != "")
      && (enrichment.Failed? ==> a.keyInsight == ml.personalizedInsight)
      && (enrichment == Replied(None) ==> a.keyInsight == ml.personalizedInsight)
      && (enrichment.Replied? && enrichment.keyInsight.Some? && enrichment.keyInsight.value != ""
          ==> a.keyInsight == enrichment.keyInsight.value)
  {
  }

  /** The recommendations are the engine's, in the same order and number,
      each with every field but the priority. */
  lemma ItemsKeepOrder(recs: seq<Recommendations.Recommendation>)
    ensures |ToItems(recs)| == |recs|
    ensures forall i :: 0 <= i < |recs| ==>
      var item, r := ToItems(recs)[i], recs[i];
      && item.title == r.title && item.description == r.description
      && item.category == r.category && item.impact == r.impact
      && item.actionable == r.actionable
    ensures forall i, j :: 0 <= i < |recs| && 0 <= j < |recs| && recs[i] == recs[j] ==> ToItems(recs)[i] == ToItems(recs)[j]
  {
  }

  /** The analysis of a submitted form: scores in range, at most four
      recommendations, the engine's confidence, and without a usable reply
      the engine's sentence about the capitalised platform. */
  lemma AnalysisShape(platform: string, responses: ResponseSet, random: real, enrichment: Enrichment)
    requires 0.0 <= random < 1.0
    ensures var a := AnalyzeAssessmentResponses(platform, responses, random, enrichment);
      && 1.0 <= a.overallScore <= 9.0
      && 1.0 <= a.moodScore <= 10.0
      && 1.0 <= a.usageScore <= 10.0
      && 1.0 <= a.comparisonScore <= 10.0
      && |a.recommendations| <= 4
      && a.confidenceScore.Some?
      && (a.confidenceScore.value.NotANumber? <==> !Platforms.IsKnown(platform))
      && (enrichment == Failed ==> "Your " + Capitalize(platform) <= a.keyInsight)
  {
    var ml := Scores(platform, responses, random);
    ScoringProperties.ScoresBounds(platform, responses, random);
    var recs := Recommendations.Recommend(platform, responses, ml.riskLevel);
    Recommendations.RecommendShape(platform, responses, ml.riskLevel);
    var weights := PlatformScoring(platform);
    var t := TallyOf(weights, responses);
    var overall := AdjustedOverall(t);
    assert ml.personalizedInsight == PersonalizedInsight(platform, overall, ml.riskLevel, t.riskFactors, t.protectiveFactors);
  }

  // ---------------------------------------------------------------------------
  // The fallback scorer

  const RiskWords: seq<string> := ["overwhelming", "drained", "anxious", "affected", "significantly", "deeply"]
  const PositiveWords: seq<string> := ["positive", "energized", "supports", "connected", "helpful", "inspiring"]

  /** `s` contains one of `words`. */
  predicate MentionsAny(s: string, words: seq<string>) {
    exists i :: 0 <= i < |words| && Contains(s, words[i])
  }

  /** Only string values are inspected for the keywords. */
  predicate Indicates(v: Value, words: seq<string>) {
    v.Str? && MentionsAny(v.text, words)
  }

  /** The answers kept by `Object.values(responses).filter(Boolean)`, by key. */
  function TruthyKeys(responses: ResponseSet): set<string> {
    set k | k in responses && Truthy(responses[k])
  }

  /** The kept answers that mention one of `words`. */
  function IndicatorKeys(responses: ResponseSet, words: seq<string>): set<string> {
    set k | k in responses && Truthy(responses[k]) && Indicates(responses[k], words)
  }

  /** `Math.max(total, 1)`. */
  function Denominator(total: nat): nat {
    if total > 1 then total else 1
  }

  function FallbackLevel(riskRatio: real, positiveRatio: real): RiskLevel {
    if riskRatio > 0.4 then High
    else if positiveRatio > 0.4 then Low
    else Moderate
  }

  function FallbackOverall(level: RiskLevel): real {
    match level
    case High => 4.0
    case Low => 8.0
    case Moderate => 6.0
  }

  /** How a risk level is written into the insight. */
  function LevelName(level: RiskLevel): string {
    match level
    case Low => "low"
    case Moderate => "moderate"
    case High => "high"
  }

  const HighFocus: string := "reducing time and managing triggers"
  const OtherFocus: string := "maintaining healthy boundaries"

  function Focus(level: RiskLevel): string {
    if level == High then HighFocus else OtherFocus
  }

  function FallbackInsight(platform: string, level: RiskLevel): string {
    "Your " + platform + " usage shows " + LevelName(level) + " risk patterns. Focus on " + Focus(level) + "."
  }

  const MindfulBrowsingItem: RecommendationItem := RecommendationItem(
    "Practice mindful browsing",
    "Take breaks between scrolling sessions to check in with yourself",
    Recommendations.MindfulBrowsing, Recommendations.Medium, true)

  const CurateFeedItem: RecommendationItem := RecommendationItem(
    "Curate your feed",
    "Unfollow accounts that make you feel negative emotions",
    Recommendations.FeedCuration, Recommendations.Impact.High, true)

  function DefaultRecommendations(platform: string): seq<RecommendationItem> {
    [ RecommendationItem(
        "Set " + platform + " time limits",
        "Consider using app timers to limit daily " + platform + " usage",
        Recommendations.TimeLimit, Recommendations.Impact.High, true),
      MindfulBrowsingItem,
      CurateFeedItem ]
  }

  /** `generateFallbackAnalysis(platform, responses)`. The derived scores
      follow the level alone: (overall, mood, usage, comparison) is
      (4, 3, 3, 4) for high, (8, 7, 6, 6) for low and (6, 5, 4, 6) for
      moderate; so mood and usage never fall below 3 and the floor of
      `Math.max(3, ...)` only matters for the usage score of high risk. There
      is no confidence score. */
  function FallbackAnalysis(platform: string, responses: ResponseSet): (a: AssessmentAnalysis)
    ensures a.riskLevel == High ==> a.overallScore == 4.0 && a.moodScore == 3.0 && a.usageScore == 3.0 && a.comparisonScore == 4.0
    ensures a.riskLevel == Low ==> a.overallScore == 8.0 && a.moodScore == 7.0 && a.usageScore == 6.0 && a.comparisonScore == 6.0
    ensures a.riskLevel == Moderate ==> a.overallScore == 6.0 && a.moodScore == 5.0 && a.usageScore == 4.0 && a.comparisonScore == 6.0
    ensures a.moodScore == a.overallScore - 1.0
    ensures a.usageScore == a.overallScore - 2.0 <==> a.riskLevel != High
    ensures a.comparisonScore == 4.0 <==> a.riskLevel == High
    ensures a.confidenceScore == None
  {
    var total := |TruthyKeys(responses)|;
    var riskIndicators := |IndicatorKeys(responses, RiskWords)|;
    var positiveIndicators := |IndicatorKeys(responses, PositiveWords)|;
    var riskRatio := riskIndicators as real / Denominator(total) as real;
    var positiveRatio := positiveIndicators as real / Denominator(total) as real;
    var level := FallbackLevel(riskRatio, positiveRatio);
    var overall := FallbackOverall(level);
    AssessmentAnalysis(
      overall,
      Max(3.0, overall - 1.0),
      Max(3.0, overall - 2.0),
      if level == High then 4.0 else 6.0,
      FallbackInsight(platform, level),
      DefaultRecommendations(platform),
      level,
      None)
  }

  /** `count / d > 0.4` exactly when `5 * count > 2 * d`. */
  lemma RatioAbove(count: nat, d: nat)
    requires d > 0
    ensures count as real / d as real > 0.4 <==> 5 * count > 2 * d
  {
    var c, dr := count as real, d as real;
    var r := c / dr;
    assert r * dr == c;
    ScoringProperties.MultiplyBoth(0.4, r, dr);
    assert r > 0.4 <==> c > 0.4 * dr;
    assert c > 0.4 * dr <==> 5 * count > 2 * d;
  }

  /** Keyword matches are among the kept answers. */
  lemma IndicatorsAmongAnswers(responses: ResponseSet, words: seq<string>)
    ensures IndicatorKeys(responses, words) <= TruthyKeys(responses)
    ensures |IndicatorKeys(responses, words)| <= |TruthyKeys(responses)|
  {
    var a, b := IndicatorKeys(responses, words), TruthyKeys(responses);
    assert b == a + (b - a);
    assert |b| == |a| + |b - a|;
  }

  /** The fallback's risk rule in whole numbers, with `d = max(total, 1)`:
      high when more than two fifths of the kept answers are risk indicators
      (strictly), else low when more than two fifths are positive, else
      moderate; the overall score is 4, 8 and 6 respectively. */
  lemma FallbackRiskRule(platform: string, responses: ResponseSet)
    ensures var a := FallbackAnalysis(platform, responses);
      var d := Denominator(|TruthyKeys(responses)|);
      var risk, positive := |IndicatorKeys(responses, RiskWords)|, |IndicatorKeys(responses, PositiveWords)|;
      && (a.riskLevel == High <==> 5 * risk > 2 * d)
      && (a.riskLevel == Low <==> 5 * risk <= 2 * d && 5 * positive > 2 * d)
      && (a.riskLevel == Moderate <==> 5 * risk <= 2 * d && 5 * positive <= 2 * d)
      && a.overallScore == (if 5 * risk > 2 * d then 4.0 else if 5 * positive > 2 * d then 8.0 else 6.0)
  {
    var d := Denominator(|TruthyKeys(responses)|);
    RatioAbove(|IndicatorKeys(responses, RiskWords)|, d);
    RatioAbove(|IndicatorKeys(responses, PositiveWords)|, d);
  }

  /** Always the same three recommendations, in the order time limit, mindful
      browsing, feed curation, all actionable; the first names the platform. */
  lemma FallbackRecommendations(platform: string, responses: ResponseSet)
    ensures var recs := FallbackAnalysis(platform, responses).recommendations;
      && |recs| == 3
      && recs[0].category == Recommendations.TimeLimit
      && recs[1].category == Recommendations.MindfulBrowsing
      && recs[2].category == Recommendations.FeedCuration
      && recs[0].impact == Recommendations.Impact.High
      && recs[1].impact == Recommendations.Medium
      && recs[2].impact == Recommendations.Impact.High
      && (forall i :: 0 <= i < 3 ==> recs[i].actionable)
      && Contains(recs[0].title, platform)
  {
    ContainsInMiddle("Set ", platform, " time limits");
  }

  /** The fallback insight opens with the platform and names the level and
      its focus. */
  lemma FallbackInsightNamesLevel(platform: string, responses: ResponseSet)
    ensures var a := FallbackAnalysis(platform, responses);
      && "Your " + platform <= a.keyInsight
      && Contains(a.keyInsight, LevelName(a.riskLevel))
      && Contains(a.keyInsight, Focus(a.riskLevel))
  {
    var level := FallbackAnalysis(platform, responses).riskLevel;
    var head := "Your " + platform + " usage shows ";
    var name := LevelName(level);
    var middle := " risk patterns. Focus on ";
    var focus := Focus(level);
    assert FallbackInsight(platform, level) == head + name + (middle + focus + ".");
    ContainsInMiddle(head, name, middle + focus + ".");
    assert FallbackInsight(platform, level) == (head + name + middle) + focus + ".";
    ContainsInMiddle(head + name + middle, focus, ".");
  }

  /** An answer that is falsy (an empty string, `false`, `null`, 0) changes
      nothing: it is filtered out before anything is counted. */
  lemma FallbackIgnoresFalsy(platform: string, responses: ResponseSet, id: string, v: Value)
    requires id !in responses && !Truthy(v)
    ensures FallbackAnalysis(platform, responses[id := v]) == FallbackAnalysis(platform, responses)
  {
    var more := responses[id := v];
    assert TruthyKeys(more) == TruthyKeys(responses);
    assert IndicatorKeys(more, RiskWords) == IndicatorKeys(responses, RiskWords);
    assert IndicatorKeys(more, PositiveWords) == IndicatorKeys(responses, PositiveWords);
  }

  /** A truthy answer that is not a string counts as an answer and as neither
      kind of indicator, so it can only dilute the ratios. */
  lemma FallbackNonStringDilutes(responses: ResponseSet, id: string)
    requires id !in responses
    ensures var more := responses[id := Other(true)];
      && |TruthyKeys(more)| == |TruthyKeys(responses)| + 1
      && IndicatorKeys(more, RiskWords) == IndicatorKeys(responses, RiskWords)
      && IndicatorKeys(more, PositiveWords) == IndicatorKeys(responses, PositiveWords)
  {
    var more := responses[id := Other(true)];
    assert TruthyKeys(more) == TruthyKeys(responses) + {id};
  }

  /** With nothing answered the fallback is moderate, and with only risk
      indicators among at least one answer it is high. */
  lemma FallbackExtremes(platform: string, responses: ResponseSet)
    ensures TruthyKeys(responses) == {} ==> FallbackAnalysis(platform, responses).riskLevel == Moderate
    ensures TruthyKeys(responses) != {} && IndicatorKeys(responses, RiskWords) == TruthyKeys(responses)
      ==> FallbackAnalysis(platform, responses).riskLevel == High
  {
    FallbackRiskRule(platform, responses);
    IndicatorsAmongAnswers(responses, RiskWords);
    IndicatorsAmongAnswers(responses, PositiveWords);
    if TruthyKeys(responses) != {} {
      var k :| k in TruthyKeys(responses);
      assert |TruthyKeys(responses)| >= 1;
    }
  }
}

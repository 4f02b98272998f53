# Mindtrack scoring core in Dafny

Mindtrack is a mental-wellness app. A user picks a social-media platform
(Instagram, Facebook, Snapchat or Twitter), answers a questionnaire about how
they use it, and gets back an analysis. The project models the part of the
program that turns answers into that analysis, and proves properties of it:

- **Question catalog** (`catalog.dfy`). The form's per-platform questions,
  each with an id and four option values.
- **Questionnaire** (`questionnaire.dfy`). The form's navigation state machine
  as a class: the question on screen, the answers so far, answering, going
  back, going forward, and when the form may be submitted.
- **Scoring engine** (`scoring.dfy`, `scoring_properties.dfy`). The weighted
  question tables, `calculateAdvancedScores` (its accumulation loop and the
  derivation of the four scores, the risk level and the confidence), and the
  personalised insight sentence.
- **Recommendation generator** (`recommendations.dfy`). The five rules, the
  stable sort by priority and the cut to four.
- **Cross-references** (`consistency.dfy`). Every question id and answer value
  that the scoring tables and the rules mention is one the catalog offers.
- **Analysis assembly** (`analysis.dfy`). `analyzeAssessmentResponses`, where
  the language model's reply is an input (`Enrichment`), and the keyword-ratio
  fallback scorer `generateFallbackAnalysis`.
- **Progress page** (`progress.dfy`). The trend label `getTrend` and the
  grouping of assessments by platform.
- **Worked submissions** (`examples.dfy`). A fully risky and a fully positive
  Instagram submission carried through the engine.

Answers are JavaScript values. `Responses.Value` separates strings from other
values, so truthiness (`if (!userResponse) continue`), strict `includes` and
`typeof response === 'string'` are modelled as the code has them.
`Math.random()` is a parameter `random` with `0 <= random < 1`. Scores are
exact reals. `Math.round` is rounding half up.

Three consequences of the code worth knowing:

- For an unknown platform the code divides 0 by 0, so the confidence is NaN
  (`Confidence.NotANumber`), not 0.
- A fully positive Instagram submission scores exactly 9.0, not 10: a base of
  8 plus the low-risk bonus of 1 (`Examples.PositiveInstagramScores`).
- The confidence is 100 when every weighted question has a truthy answer,
  whether or not it is one of the question's options
  (`ScoringProperties.ConfidenceFullIffAllAnswered`).

## Model

| member | source | states |
|---|---|---|
| Catalog.QuestionsForPlatform | client/src/components/AssessmentForm.tsx:23-426 | an unknown platform has no questions; Instagram has 9 questions and the other three platforms 10; every question has four options and ids are distinct |
| Catalog.InstagramQuestions | client/src/components/AssessmentForm.tsx:25-116 | nine questions, four options each, distinct ids |
| Catalog.FacebookQuestions | client/src/components/AssessmentForm.tsx:117-218 | ten questions, four options each, distinct ids |
| Catalog.SnapchatQuestions | client/src/components/AssessmentForm.tsx:219-320 | ten questions, four options each, distinct ids |
| Catalog.TwitterQuestions | client/src/components/AssessmentForm.tsx:321-422 | ten questions, four options each, distinct ids |
| Questionnaire.CountIffAllAnswered | client/src/components/AssessmentForm.tsx:458 | when answers are keyed only by the questions' distinct ids, there are as many answers as questions exactly when every question is answered |
| Questionnaire.AssessmentForm.constructor | client/src/components/AssessmentForm.tsx:428-431 | the form opens on question 0 of the platform's catalog with no answers, in a valid state |
| Questionnaire.AssessmentForm.HandleAnswer | client/src/components/AssessmentForm.tsx:436-446 | records the value for the question on screen and keeps every other answer; moves to the next question unless on the last one; keeps the state valid |
| Questionnaire.AssessmentForm.HandlePrevious | client/src/components/AssessmentForm.tsx:448-452 | steps back one question unless on the first; answers unchanged |
| Questionnaire.AssessmentForm.Next | client/src/components/AssessmentForm.tsx:566-568 | while Next is enabled (the question on screen has a non-empty answer and is not the last), advances by one with answers unchanged |
| Questionnaire.AssessmentForm.SubmitMeansAllAnswered | client/src/components/AssessmentForm.tsx:458-459 | the form can be submitted exactly when every question has an answer; the submit button and an enabled Next are never offered together |
| Scoring.PlatformScoring | server/scoring.ts:21-170 | each known platform has five weighted questions with distinct ids, positive weights summing to 1, non-empty answer values, and positive answers that are neither negative nor risky; any other platform has none |
| Scoring.InstagramScoring | server/scoring.ts:22-58 | five weighted questions, weights summing to 1, distinct ids, well-formed answer lists |
| Scoring.FacebookScoring | server/scoring.ts:59-95 | five weighted questions, weights summing to 1, distinct ids, well-formed answer lists |
| Scoring.SnapchatScoring | server/scoring.ts:96-132 | five weighted questions, weights summing to 1, distinct ids, well-formed answer lists |
| Scoring.TwitterScoring | server/scoring.ts:133-169 | five weighted questions, weights summing to 1, distinct ids, well-formed answer lists |
| Scoring.Classify | server/scoring.ts:191-206 | an answer scores 8 and is protective exactly when it is a positive response; 2 and a risk factor exactly when it is a risk response and not positive; 3 exactly when it is negative only; 5 exactly when it is in no list |
| Scoring.Step | server/scoring.ts:186-210 | an unanswered (falsy) question leaves the totals unchanged; an answered one adds one processed answer, its weight, at most one factor, and between 2 and 8 times its weight to the weighted score |
| Scoring.TallyCounts | server/scoring.ts:186-210 | the processed count is the number of answered weighted questions, the weight is their weight sum, each adds at most one factor, and the weighted score is between 2 and 8 times the weight |
| Scoring.AllAnsweredIffCount | server/scoring.ts:186-190 | the answered questions number as many as the weighted questions exactly when all are answered |
| Scoring.AccumulateResponses | server/scoring.ts:179-210 | the loop's totals equal the totals of the whole table |
| Scoring.RoundHalfUp | server/scoring.ts:252-257 | `Math.round`: the result is within half a unit, halves going up |
| Scoring.RoundTenth | server/scoring.ts:252-255 | rounding to one decimal moves a value by at most 0.05 and keeps [1, 10] |
| Scoring.RoundTenthMonotone | server/scoring.ts:252-255 | rounding to one decimal is monotone |
| Scoring.AdjustOverall | server/scoring.ts:226-232 | moderate keeps the base score; high subtracts 2 with a floor of 1; low adds 1 with a ceiling of 10; a base in [1, 10] stays in [1, 10] |
| Scoring.BandOf | server/scoring.ts:271-279 | the insight band is the strength band from 7.5, balanced in [5.5, 7.5), concern in [3.5, 5.5), significant impact below 3.5 |
| Scoring.CalculateAdvancedScores | server/scoring.ts:173-260 | the result equals the specification function `Scores`, whose bounds and properties are proved in ScoringProperties |
| Scoring.AssessRisk | server/scoring.ts:213-232 | the ratios are the counts over the processed answers (0 when none), the risk level is `RiskLevelOf` of the ratios, and the overall score is the base score adjusted for that level (`AdjustedOverall`) |
| Scoring.DeriveScores | server/scoring.ts:212-259 | the derivation from the totals equals the specification function `Finish` |
| Scoring.PersonalizedInsight | server/scoring.ts:262-280 | the insight opens with "Your " and the capitalised platform, carries its band's sentence, and cites the protective-factor count in the strength band and the risk-factor count otherwise |
| ScoringProperties.BaseScoreBounds | server/scoring.ts:213 | for totals the loop can produce, the base score lies in [2, 8] |
| ScoringProperties.RiskLevelByCounts | server/scoring.ts:216-224 | high exactly when risk factors are at least two fifths of the processed answers; else low exactly when protective factors are at least three fifths; moderate otherwise and when nothing is processed |
| ScoringProperties.FinishBounds | server/scoring.ts:212-259 | the overall score lies in [1, 9] and the other three in [1, 10]; the confidence is a percentage in [0, 100], or NaN when the platform has no weighted questions |
| ScoringProperties.ConfidenceOfFive | server/scoring.ts:240 | with five weighted questions, the confidence is 20 points per answered question |
| ScoringProperties.ScoresBounds | server/scoring.ts:173-259 | for every platform and answer set, the four scores are in range; the confidence is 20 points per answered weighted question for a known platform and NaN otherwise |
| ScoringProperties.ConfidenceFullIffAllAnswered | server/scoring.ts:240 | for a known platform, the confidence is 100 exactly when every weighted question has a truthy answer |
| ScoringProperties.NothingAnsweredTally | server/scoring.ts:186-210 | with no weighted question answered, all totals are zero |
| ScoringProperties.NeutralFinish | server/scoring.ts:212-237 | empty totals give overall 5, moderate risk, usage 5.5, comparison 4 and a mood within one point of 5 |
| ScoringProperties.NeutralWhenNothingAnswered | server/scoring.ts:173-259 | an unanswered form or an unknown platform gives the neutral result, with confidence 0 (NaN for an unknown platform) |
| ScoringProperties.TallyUpgrade | server/scoring.ts:186-210 | replacing a non-positive answer by a positive one keeps the processed count and weight, does not lower the weighted score, adds no risk factor and removes no protective factor |
| ScoringProperties.AdjustOverallMonotone | server/scoring.ts:227-232 | the adjusted score grows with the base score and with a more favourable risk level |
| ScoringProperties.RiskLevelImproves | server/scoring.ts:219-224 | fewer risk factors and more protective ones never make the risk level less favourable |
| ScoringProperties.BaseScoreImproves | server/scoring.ts:213 | over the same weight, a larger weighted score gives a larger base score |
| ScoringProperties.UpgradeTallyEffect | server/scoring.ts:186-232 | an upgraded answer never lowers the unrounded overall score or the risk level |
| ScoringProperties.UpgradeNeverLowersOverall | server/scoring.ts:173-259 | replacing a non-positive answer to a weighted question by a positive one never lowers the reported overall score and moves the risk level only towards low |
| Recommendations.TimeLimitAdvice | server/scoring.ts:298-308 | the time-limit advice is in the time-limit category, high impact and actionable, and has priority 1 exactly when the risk level is high, else 2 |
| Recommendations.GeneratePersonalizedRecommendations | server/scoring.ts:283-361 | the method's result equals the specification function `Recommend`: the fired rules' advice, stably sorted by priority, cut to four |
| Recommendations.CollectRecommendations | server/scoring.ts:295-356 | the five tests in order push exactly the advice of the rules that fire, in rule order (the specification function `Fired`) |
| Recommendations.PushedMembers | server/scoring.ts:298-356 | an advice is pushed exactly when a rule carrying it fires; at most one entry per rule; nothing exactly when no rule fires |
| Recommendations.FiredPriorities | server/scoring.ts:298-356 | every pushed advice has priority 1 or 2 |
| Recommendations.AdviceDistinct | server/scoring.ts:298-356 | the five pieces of advice are pairwise different |
| Recommendations.FiredByRule | server/scoring.ts:298-356 | each rule's advice is among the fired ones exactly when its condition holds; the news advice never for a platform other than Twitter; at most five entries |
| Recommendations.SortByPriority | server/scoring.ts:358-359 | the sort returns a permutation of its input, of the same length, ordered by priority |
| Recommendations.SortStable | server/scoring.ts:358-359 | entries of equal priority keep their relative order |
| Recommendations.TopShape | server/scoring.ts:358-360 | sort then slice gives min(4, n) entries, sorted, drawn from the input; all of them when there are at most four; none exactly when the input is empty; every entry dropped has a priority no more urgent than every entry kept |
| Recommendations.RecommendShape | server/scoring.ts:358-360 | the generator returns at most four recommendations, sorted by priority and drawn from the fired ones; all of them when at most four fired; none exactly when no rule fired; the ones cut are no more urgent than the ones kept |
| Recommendations.RecommendKeepsRuleOrder | server/scoring.ts:358-360 | for each priority, the returned entries of that priority are a prefix of the fired ones in rule order |
| Recommendations.UrgentFirst | server/scoring.ts:358-360 | when any priority-1 rule fires, the first recommendation has priority 1 |
| Consistency.ScoringRefersToCatalog | server/scoring.ts:21-170 | every weighted question of every platform's table is a question of that platform's catalog, and every answer value it lists is one of that question's options |
| Consistency.RuleAnswersOffered | server/scoring.ts:298-356 | for every answer value a recommendation rule tests for, a submission holding just that answer makes the rule fire, and some platform's form offers that value for that question id |
| Analysis.AnalyzeAssessmentResponses | server/openai.ts:28-113 | the scores, risk level and confidence are those of `calculateAdvancedScores`; the items are the generated recommendations mapped in order without their priority; the key insight is the engine's sentence or the reply, never empty unless the engine's sentence is, and a non-empty string reply is used |
| Analysis.OnlyInsightDiffers | server/openai.ts:76-111 | whatever the language model does, the analyses agree on everything except the key insight; the error path equals an absent or empty reply |
| Analysis.EngineDecides | server/openai.ts:76-111 | the scores, risk level and confidence are the engine's, and the items are the engine's recommendations mapped in order; a non-empty string reply becomes the key insight; an absent reply and the error path give the engine's sentence; any other insight is never empty |
| Analysis.ItemsKeepOrder | server/openai.ts:82-88 | the recommendations are the engine's in the same order and number, with every field except the priority |
| Analysis.AnalysisShape | server/openai.ts:28-113 | scores in range, at most four recommendations, a confidence that is NaN exactly for an unknown platform, and on the error path an insight opening with the capitalised platform |
| Analysis.IndicatorsAmongAnswers | server/openai.ts:118-139 | keyword indicators are among the truthy answers, so their count is at most the total |
| Analysis.RatioAbove | server/openai.ts:142-154 | `count / d > 0.4` exactly when `5 * count > 2 * d` |
| Analysis.FallbackRiskRule | server/openai.ts:141-154 | high exactly when strictly more than two fifths of the truthy answers are risk indicators; else low when strictly more than two fifths are positive; else moderate; overall 4, 8 or 6 |
| Analysis.FallbackAnalysis | server/openai.ts:116-189 | the derived scores follow the level alone, (4, 3, 3, 4) for high, (8, 7, 6, 6) for low and (6, 5, 4, 6) for moderate; no confidence score |
| Analysis.FallbackRecommendations | server/openai.ts:156-178 | always three recommendations (time limit, mindful browsing, feed curation), all actionable, with impacts high, medium and high; the first names the platform |
| Analysis.FallbackInsightNamesLevel | server/openai.ts:185 | the fallback insight opens with "Your " and the platform, and names the risk level and its focus |
| Analysis.FallbackIgnoresFalsy | server/openai.ts:118 | adding a falsy answer does not change the fallback analysis |
| Analysis.FallbackNonStringDilutes | server/openai.ts:118-141 | a truthy non-string answer counts towards the total and towards neither kind of indicator |
| Analysis.FallbackExtremes | server/openai.ts:141-154 | with no truthy answer the level is moderate; when every truthy answer is a risk indicator it is high |
| Progress.ShortIsStable | client/src/pages/progress.tsx:79-89 | with three entries or fewer the trend is stable |
| Progress.GetTrend | client/src/pages/progress.tsx:79-89 | stable with fewer than two entries; otherwise improving exactly when the recent average exceeds the older by more than 0.5; declining exactly when it falls short by more than 0.5; stable otherwise |
| Progress.WindowsSwap | client/src/pages/progress.tsx:81-82 | the first three entries of the reversed history are the last three reversed, and the other way round |
| Progress.TrendReversal | client/src/pages/progress.tsx:79-89 | reading the history in the opposite order swaps improving and declining and keeps stable |
| Progress.GroupByPlatform | client/src/pages/progress.tsx:70-76 | the grouping's keys are the platforms that occur; each group holds that platform's assessments in input order; keys are created in order of first appearance |
| Progress.OfPlatformMembers | client/src/pages/progress.tsx:70-76 | a group holds exactly the assessments of its platform, and is non-empty exactly when the platform occurs |
| Progress.OfPlatformAppend | client/src/pages/progress.tsx:70-76 | grouping a concatenation concatenates the groups |
| Progress.FirstAppearanceKeys | client/src/pages/progress.tsx:70-76 | the key order lists each occurring platform exactly once |
| Progress.GroupSizesSum | client/src/pages/progress.tsx:70-76 | every assessment lands in exactly one group: the group sizes add up to the number of assessments |
| Text.Capitalize | server/scoring.ts:269 | `charAt(0).toUpperCase() + slice(1)`: same length, the tail unchanged, the first letter upper case |
| Text.NatToStringRoundTrip | server/scoring.ts:272-278 | the decimal rendering of a count in the insight reads back as the count |
| Examples.AllRiskyTally | server/scoring.ts:186-210 | when every weighted question has a risk answer, each scores 2 and counts as a risk factor |
| Examples.AllProtectiveTally | server/scoring.ts:186-210 | when every weighted question has a positive answer, each scores 8 and counts as a protective factor |
| Examples.RiskyInstagramScores | server/scoring.ts:173-259 | the fully risky Instagram submission gives high risk, overall 1.0, usage 1.0, comparison 1.0 and confidence 100 |
| Examples.RiskyInstagramRecommendations | server/scoring.ts:283-361 | it gets the time-limit advice at priority 1 and the mindful-break advice, in rule order, then the engagement-pressure advice |
| Examples.PositiveInstagramScores | server/scoring.ts:173-259 | the fully positive Instagram submission gives low risk, overall 9.0, usage 9.5, comparison 10.0 and confidence 100 |
| Examples.PositiveInstagramRecommendations | server/scoring.ts:283-361 | it gets no recommendation |

## Left out

- Rendering, styling, progress bars and toasts of the React pages are not modelled. Only the form's state and the page-level computations are.
- The HTTP routes, the storage layer, the database, authentication and the goal records created from recommendations are not part of this model.
- The request to the language model is not modelled. Its outcome is the `Enrichment` input: failed, or a parsed reply with an absent or string `keyInsight`.
- Analysis.AnalyzeAssessmentResponses: a reply whose `keyInsight` is a truthy non-string value (which the code would pass through) is not modelled.
- The chatbot (`generateChatbotResponse`) is not part of this model.
- `Math.random()` is a parameter in [0, 1), so the model covers every value it may return, but not the distribution.
- Scores are exact reals, not IEEE-754 doubles. Rounding differences of binary floating point (for example in `x * 10` before `Math.round`) are not modelled.
- Progress.GetTrend takes the entries' overall wellness as reals. `parseFloat` on the stored strings and the `|| 0` default are not modelled.
- Platform strings that name JavaScript prototype properties (such as `constructor`) are treated as unknown platforms; the prototype lookup the code would do is not modelled.
- Progress.GroupByPlatform: the key order is insertion order. JavaScript puts integer-like keys first, which is not modelled.
- Text.Capitalize: upper-cases ASCII letters only. Unicode case mapping is not modelled.
- Catalog.QuestionsForPlatform: keeps question ids and option values. The question prompts and option labels are display text and are left out.
- Analysis.RecommendationItem: the categories `gratitude` and `skill_building` and the impact `low` are allowed by the type but never produced, so they are left out.
- Analysis.FallbackAnalysis: the fallback scorer is modelled, but no code path calls it.

/** The rule-based recommendation generator (`generatePersonalizedRecommendations`):
    five independent rules tested against raw answer values, in a fixed order,
    then a stable sort by priority (`Array.prototype.sort` is stable) and the
    first four entries. */
module Recommendations {
  import opened Responses
  import Scoring

  datatype Category = TimeLimit | MindfulBrowsing | FeedCuration

  datatype Impact = High | Medium

  datatype Recommendation = Recommendation(
    title: string,
    description: string,
    category: Category,
    impact: Impact,
    actionable: bool,
    priority: nat)

  // ---------------------------------------------------------------------------
  // The five rules, in the order they are tested

  /** Heavy use: answered "regularly" to the usage-frequency question or
      "more_2hours" to the daily-usage one. */
  predicate TimeLimitFires(responses: ResponseSet) {
    HasAnswer(responses, "usage_frequency", "regularly") || HasAnswer(responses, "daily_usage", "more_2hours")
  }

  predicate MindfulBreakFires(responses: ResponseSet) {
    HasAnswer(responses, "feeling_after", "drained") || HasAnswer(responses, "emotional_effect", "drained")
  }

  predicate FeedCurationFires(responses: ResponseSet) {
    HasAnswer(responses, "comparing_life", "frequently") || HasAnswer(responses, "comparing_life", "almost_always")
  }

  predicate EngagementPressureFires(responses: ResponseSet) {
    HasAnswer(responses, "engagement_importance", "affected") || HasAnswer(responses, "streak_breaks", "upset")
  }

  /** Only ever for Twitter. */
  predicate NewsExposureFires(platform: string, responses: ResponseSet) {
    platform == "twitter"
    && (HasAnswer(responses, "online_arguments", "significantly") || HasAnswer(responses, "trending_topics", "very_often"))
  }

  const MindfulBreakTitle: string := "Practice mindful breaks"
  const MindfulBreakText: string := "Take 5-minute mindfulness breaks between social media sessions"
  const FeedCurationTitle: string := "Curate your feed mindfully"
  const FeedCurationText: string := "Unfollow accounts that trigger comparison or negative emotions"
  const EngagementPressureTitle: string := "Reduce engagement pressure"
  const EngagementPressureText: string := "Hide like counts and follower numbers to reduce social pressure"
  const NewsExposureTitle: string := "Limit news and debate exposure"
  const NewsExposureText: string := "Schedule specific times for news consumption and avoid political debates"

  /** The time-limit advice names the platform; it is urgent only at high risk. */
  function TimeLimitAdvice(platform: string, riskLevel: Scoring.RiskLevel): (r: Recommendation)
    ensures r.category == TimeLimit && r.impact == High && r.actionable
    ensures r.priority == 1 <==> riskLevel == Scoring.High
    ensures r.priority == 2 <==> riskLevel != Scoring.High
  {
    Recommendation("Set " + platform + " time limits",
      "Consider using app timers to limit daily " + platform + " usage to 1-2 hours",
      TimeLimit, High, true, if riskLevel == Scoring.High then 1 else 2)
  }

  const MindfulBreakAdvice: Recommendation :=
    Recommendation(MindfulBreakTitle, MindfulBreakText, MindfulBrowsing, High, true, 1)
  const FeedCurationAdvice: Recommendation :=
    Recommendation(FeedCurationTitle, FeedCurationText, FeedCuration, High, true, 1)
  const EngagementPressureAdvice: Recommendation :=
    Recommendation(EngagementPressureTitle, EngagementPressureText, MindfulBrowsing, Medium, true, 2)
  const NewsExposureAdvice: Recommendation :=
    Recommendation(NewsExposureTitle, NewsExposureText, MindfulBrowsing, High, true, 1)

  /** A rule: whether its condition holds, and the advice it pushes if so. */
  datatype Rule = Rule(fires: bool, advice: Recommendation)

  /** The five rules in the order they are tested. */
  function Rules(platform: string, responses: ResponseSet, riskLevel: Scoring.RiskLevel): (rs: seq<Rule>)
    ensures |rs| == 5
  {
    [ Rule(TimeLimitFires(responses), TimeLimitAdvice(platform, riskLevel)),
      Rule(MindfulBreakFires(responses), MindfulBreakAdvice),
      Rule(FeedCurationFires(responses), FeedCurationAdvice),
      Rule(EngagementPressureFires(responses), EngagementPressureAdvice),
      Rule(NewsExposureFires(platform, responses), NewsExposureAdvice) ]
  }

  /** What one rule pushes: its advice if it fires, nothing otherwise. */
  function Push(rule: Rule): seq<Recommendation> {
    if rule.fires then [rule.advice] else []
  }

  /** The advice pushed by the rules that fire, in rule order. */
  function Pushed(rs: seq<Rule>): seq<Recommendation> {
    if rs == [] then [] else Pushed(rs[..|rs| - 1]) + Push(rs[|rs| - 1])
  }

  /** The recommendations pushed before sorting. */
  function Fired(platform: string, responses: ResponseSet, riskLevel: Scoring.RiskLevel): seq<Recommendation> {
    Pushed(Rules(platform, responses, riskLevel))
  }

  /** An advice is pushed exactly when some rule carrying it fires; at most one
      entry per rule; nothing exactly when no rule fires. */
  lemma {:induction false} PushedMembers(rs: seq<Rule>)
    ensures forall x :: x in Pushed(rs) <==> exists i :: 0 <= i < |rs| && rs[i].fires && rs[i].advice == x
    ensures |Pushed(rs)| <= |rs|
    ensures Pushed(rs) == [] <==> forall i :: 0 <= i < |rs| ==> !rs[i].fires
  {
    if rs != [] {
      var init, last := rs[..|rs| - 1], rs[|rs| - 1];
      PushedMembers(init);
      assert forall i :: 0 <= i < |init| ==> init[i] == rs[i];
      forall x | x in Pushed(rs) ensures exists i :: 0 <= i < |rs| && rs[i].fires && rs[i].advice == x {
        if x in Pushed(init) {
          var i :| 0 <= i < |init| && init[i].fires && init[i].advice == x;
          assert rs[i] == init[i];
        } else {
          assert rs[|rs| - 1].fires && rs[|rs| - 1].advice == x;
        }
      }
      forall x | exists i :: 0 <= i < |rs| && rs[i].fires && rs[i].advice == x ensures x in Pushed(rs) {
        var i :| 0 <= i < |rs| && rs[i].fires && rs[i].advice == x;
        if i < |init| {
          assert init[i] == rs[i];
        }
      }
    }
  }

  lemma PushedStep(rs: seq<Rule>, k: nat)
    requires k < |rs|
    ensures Pushed(rs[..k + 1]) == Pushed(rs[..k]) + Push(rs[k])
  {
    assert rs[..k + 1][..k] == rs[..k];
  }

  /** Five rules push what each pushes, in order. */
  lemma PushedFive(rs: seq<Rule>)
    requires |rs| == 5
    ensures Pushed(rs) == Push(rs[0]) + Push(rs[1]) + Push(rs[2]) + Push(rs[3]) + Push(rs[4])
  {
    assert rs[..0] == [];
    PushedStep(rs, 0);
    PushedStep(rs, 1);
    PushedStep(rs, 2);
    PushedStep(rs, 3);
    PushedStep(rs, 4);
    assert rs[..5] == rs;
  }

  /** The pushed advice has the priorities of the rules' advice. */
  lemma {:induction false} PushedPriorities(rs: seq<Rule>, lo: nat, hi: nat)
    requires forall i :: 0 <= i < |rs| ==> lo <= rs[i].advice.priority <= hi
    ensures forall i :: 0 <= i < |Pushed(rs)| ==> lo <= Pushed(rs)[i].priority <= hi
  {
    if rs != [] {
      var init := rs[..|rs| - 1];
      assert forall i :: 0 <= i < |init| ==> init[i] == rs[i];
      PushedPriorities(init, lo, hi);
    }
  }

  // ---------------------------------------------------------------------------
  // Stable sort by priority

  predicate Sorted(s: seq<Recommendation>) {
    forall i, j :: 0 <= i < j < |s| ==> s[i].priority <= s[j].priority
  }

  /** The entries of priority `p`, in order. */
  function WithPriority(s: seq<Recommendation>, p: nat): seq<Recommendation> {
    if s == [] then []
    else WithPriority(s[..|s| - 1], p) + (if s[|s| - 1].priority == p then [s[|s| - 1]] else [])
  }

  /** Places `x` after every entry whose priority is not larger than its own,
      as a stable comparison sort does with a later element. */
  function Insert(s: seq<Recommendation>, x: Recommendation): seq<Recommendation> {
    if s == [] || s[|s| - 1].priority <= x.priority then s + [x]
    else Insert(s[..|s| - 1], x) + [s[|s| - 1]]
  }

  /** `sort((a, b) => a.priority - b.priority)`: orders by priority and only
      reorders. */
  function SortByPriority(s: seq<Recommendation>): (r: seq<Recommendation>)
    ensures Sorted(r)
    ensures multiset(r) == multiset(s)
    ensures |r| == |s|
  {
    if s == [] then []
    else
      var init, last := s[..|s| - 1], s[|s| - 1];
      var sorted := SortByPriority(init);
      InsertSorted(sorted, last);
      InsertPermutes(sorted, last);
      assert s == init + [last];
      Insert(sorted, last)
  }

  lemma {:induction false} InsertPermutes(s: seq<Recommendation>, x: Recommendation)
    ensures multiset(Insert(s, x)) == multiset(s) + multiset{x}
    ensures |Insert(s, x)| == |s| + 1
    decreases |s|
  {
    if s != [] && s[|s| - 1].priority > x.priority {
      var init, last := s[..|s| - 1], s[|s| - 1];
      assert s == init + [last];
      InsertPermutes(init, x);
    }
  }

  /** Inserting keeps every entry at or below a bound that `x` respects. */
  lemma {:induction false} InsertBound(s: seq<Recommendation>, x: Recommendation, bound: nat)
    requires forall i :: 0 <= i < |s| ==> s[i].priority <= bound
    requires x.priority <= bound
    ensures forall i :: 0 <= i < |Insert(s, x)| ==> Insert(s, x)[i].priority <= bound
    decreases |s|
  {
    if s != [] && s[|s| - 1].priority > x.priority {
      var init := s[..|s| - 1];
      assert forall i :: 0 <= i < |init| ==> init[i] == s[i];
      InsertBound(init, x, bound);
    }
  }

  lemma {:induction false} InsertSorted(s: seq<Recommendation>, x: Recommendation)
    requires Sorted(s)
    ensures Sorted(Insert(s, x))
    decreases |s|
  {
    if s != [] && s[|s| - 1].priority > x.priority {
      var init, last := s[..|s| - 1], s[|s| - 1];
      assert forall i :: 0 <= i < |init| ==> init[i] == s[i];
      InsertSorted(init, x);
      InsertBound(init, x, last.priority);
      InsertPermutes(init, x);
    }
  }

  lemma {:induction false} WithPriorityAppend(s: seq<Recommendation>, t: seq<Recommendation>, p: nat)
    ensures WithPriority(s + t, p) == WithPriority(s, p) + WithPriority(t, p)
    decreases |t|
  {
    if t == [] {
      assert s + t == s;
    } else {
      var init := t[..|t| - 1];
      assert (s + t)[..|s + t| - 1] == s + init;
      WithPriorityAppend(s, init, p);
    }
  }

  lemma {:induction false} InsertStable(s: seq<Recommendation>, x: Recommendation, p: nat)
    ensures WithPriority(Insert(s, x), p) == WithPriority(s, p) + WithPriority([x], p)
    decreases |s|
  {
    if s == [] || s[|s| - 1].priority <= x.priority {
      WithPriorityAppend(s, [x], p);
    } else {
      var init, last := s[..|s| - 1], s[|s| - 1];
      InsertStable(init, x, p);
      WithPriorityAppend(Insert(init, x), [last], p);
      WithPriorityAppend(init, [last], p);
      assert s == init + [last];
      assert [x][..0] == [] && [last][..0] == [];
    }
  }

  /** Stability: among entries of equal priority the sort keeps the input order. */
  lemma {:induction false} SortStable(s: seq<Recommendation>, p: nat)
    ensures WithPriority(SortByPriority(s), p) == WithPriority(s, p)
  {
    if s != [] {
      var init, last := s[..|s| - 1], s[|s| - 1];
      SortStable(init, p);
      InsertStable(SortByPriority(init), last, p);
      assert [last][..0] == [];
    }
  }

  /** The entries of priority `p` in a prefix are a prefix of those in the whole. */
  lemma {:induction false} WithPriorityPrefix(s: seq<Recommendation>, k: nat, p: nat)
    requires k <= |s|
    ensures WithPriority(s[..k], p) <= WithPriority(s, p)
  {
    assert s == s[..k] + s[k..];
    WithPriorityAppend(s[..k], s[k..], p);
  }

  // ---------------------------------------------------------------------------
  // The generator

  function Min(a: nat, b: nat): nat { if a <= b then a else b }

  /** `sort(...).slice(0, 4)`: the first four of the sorted list. */
  function Top(s: seq<Recommendation>): seq<Recommendation> {
    var sorted := SortByPriority(s);
    sorted[..Min(4, |sorted|)]
  }

  /** The recommendations returned for a platform, answers and risk level. */
  function Recommend(platform: string, responses: ResponseSet, riskLevel: Scoring.RiskLevel): seq<Recommendation> {
    Top(Fired(platform, responses, riskLevel))
  }

  /** `generatePersonalizedRecommendations`: collects the advice of the rules
      that fire, then sorts by priority and keeps four. */
  method GeneratePersonalizedRecommendations(platform: string, responses: ResponseSet, scoringResult: Scoring.ScoringResult)
    returns (r: seq<Recommendation>)
    ensures r == Recommend(platform, responses, scoringResult.riskLevel)
  {
    var recommendations := CollectRecommendations(platform, responses, scoringResult.riskLevel);
    var sorted := SortByPriority(recommendations);
    r := sorted[..Min(4, |sorted|)];
  }

  /** The five tests of `generatePersonalizedRecommendations`, in order, each
      pushing its advice when it fires. */
  method CollectRecommendations(platform: string, responses: ResponseSet, riskLevel: Scoring.RiskLevel)
    returns (recommendations: seq<Recommendation>)
    ensures recommendations == Fired(platform, responses, riskLevel)
  {
    ghost var rules := Rules(platform, responses, riskLevel);
    PushedFive(rules);
    recommendations := [];
    if TimeLimitFires(responses) {
      recommendations := recommendations + [TimeLimitAdvice(platform, riskLevel)];
    }
    assert recommendations == Push(rules[0]);
    if MindfulBreakFires(responses) {
      recommendations := recommendations + [MindfulBreakAdvice];
    }
    assert recommendations == Push(rules[0]) + Push(rules[1]);
    if FeedCurationFires(responses) {
      recommendations := recommendations + [FeedCurationAdvice];
    }
    assert recommendations == Push(rules[0]) + Push(rules[1]) + Push(rules[2]);
    if EngagementPressureFires(responses) {
      recommendations := recommendations + [EngagementPressureAdvice];
    }
    assert recommendations == Push(rules[0]) + Push(rules[1]) + Push(rules[2]) + Push(rules[3]);
    if NewsExposureFires(platform, responses) {
      recommendations := recommendations + [NewsExposureAdvice];
    }
    assert recommendations == Push(rules[0]) + Push(rules[1]) + Push(rules[2]) + Push(rules[3]) + Push(rules[4]);
  }

  // ---------------------------------------------------------------------------
  // What the generator promises

  /** Sorting then keeping four gives at most four entries, sorted by
      priority, drawn from the input; all of them when there were no more than
      four; none exactly when there were none; and every entry dropped is at
      most as urgent as every entry kept. */
  lemma TopShape(s: seq<Recommendation>)
    ensures var r := Top(s);
      && Sorted(r)
      && |r| == Min(4, |s|)
      && multiset(r) <= multiset(s)
      && (|s| <= 4 ==> multiset(r) == multiset(s))
      && (r == [] <==> s == [])
      && (forall i, x :: 0 <= i < |r| && x in multiset(s) - multiset(r) ==> r[i].priority <= x.priority)
  {
    var sorted := SortByPriority(s);
    var k := Min(4, |sorted|);
    assert sorted == sorted[..k] + sorted[k..];
    assert multiset(sorted) == multiset(sorted[..k]) + multiset(sorted[k..]);
    CutKeepsMostUrgent(sorted, k);
  }

  /** Cutting a sorted list drops nothing more urgent than what it keeps. */
  lemma CutKeepsMostUrgent(sorted: seq<Recommendation>, k: nat)
    requires Sorted(sorted) && k <= |sorted|
    ensures forall i, x :: 0 <= i < k && x in multiset(sorted) - multiset(sorted[..k]) ==> sorted[i].priority <= x.priority
  {
    var r, rest := sorted[..k], sorted[k..];
    assert sorted == r + rest;
    assert multiset(sorted) == multiset(r) + multiset(rest);
    forall i, x | 0 <= i < k && x in multiset(sorted) - multiset(r)
      ensures sorted[i].priority <= x.priority
    {
      assert x in multiset(rest);
      var j :| 0 <= j < |rest| && rest[j] == x;
      assert sorted[k + j] == x;
    }
  }

  /** The generator returns at most four recommendations, sorted by priority,
      drawn from the rules that fired; all of them when no more than four
      fired; none exactly when no rule fired; and the ones cut are at most as
      urgent as the ones kept. */
  lemma RecommendShape(platform: string, responses: ResponseSet, riskLevel: Scoring.RiskLevel)
    ensures var fired, r := Fired(platform, responses, riskLevel), Recommend(platform, responses, riskLevel);
      && Sorted(r)
      && |r| == Min(4, |fired|)
      && multiset(r) <= multiset(fired)
      && (|fired| <= 4 ==> multiset(r) == multiset(fired))
      && (r == [] <==> fired == [])
      && (forall i, x :: 0 <= i < |r| && x in multiset(fired) - multiset(r) ==> r[i].priority <= x.priority)
  {
    TopShape(Fired(platform, responses, riskLevel));
  }

  /** Among recommendations of equal priority the rule order is kept, and the
      ones returned are the first ones of that priority. */
  lemma RecommendKeepsRuleOrder(platform: string, responses: ResponseSet, riskLevel: Scoring.RiskLevel, p: nat)
    ensures WithPriority(Recommend(platform, responses, riskLevel), p) <= WithPriority(Fired(platform, responses, riskLevel), p)
  {
    var fired := Fired(platform, responses, riskLevel);
    var sorted := SortByPriority(fired);
    SortStable(fired, p);
    WithPriorityPrefix(sorted, Min(4, |sorted|), p);
  }

  /** When any urgent (priority 1) rule fires, the first recommendation is urgent. */
  lemma UrgentFirst(platform: string, responses: ResponseSet, riskLevel: Scoring.RiskLevel)
    requires exists i :: 0 <= i < |Fired(platform, responses, riskLevel)| && Fired(platform, responses, riskLevel)[i].priority == 1
    ensures var r := Recommend(platform, responses, riskLevel); |r| > 0 && r[0].priority == 1
  {
    var fired := Fired(platform, responses, riskLevel);
    var sorted := SortByPriority(fired);
    FiredPriorities(platform, responses, riskLevel);
    var i :| 0 <= i < |fired| && fired[i].priority == 1;
    assert fired[i] in multiset(sorted);
    var j :| 0 <= j < |sorted| && sorted[j] == fired[i];
    assert sorted[0] in multiset(fired);
    var k :| 0 <= k < |fired| && fired[k] == sorted[0];
  }

  /** Every rule's advice has priority 1 or 2. */
  lemma FiredPriorities(platform: string, responses: ResponseSet, riskLevel: Scoring.RiskLevel)
    ensures var fired := Fired(platform, responses, riskLevel);
      forall i :: 0 <= i < |fired| ==> 1 <= fired[i].priority <= 2
  {
    PushedPriorities(Rules(platform, responses, riskLevel), 1, 2);
  }

  /** The five pieces of advice differ from one another. */
  lemma AdviceDistinct(platform: string, riskLevel: Scoring.RiskLevel)
    ensures var time := TimeLimitAdvice(platform, riskLevel);
      && time != MindfulBreakAdvice && time != FeedCurationAdvice
      && time != EngagementPressureAdvice && time != NewsExposureAdvice
      && MindfulBreakAdvice != FeedCurationAdvice && MindfulBreakAdvice != EngagementPressureAdvice
      && MindfulBreakAdvice != NewsExposureAdvice
      && FeedCurationAdvice != EngagementPressureAdvice && FeedCurationAdvice != NewsExposureAdvice
      && EngagementPressureAdvice != NewsExposureAdvice
  {
    assert |MindfulBreakTitle| != |NewsExposureTitle|;
  }

  /** The advice of a rule whose advice no other rule carries is pushed
      exactly when that rule fires. */
  lemma PushedHasAdvice(rs: seq<Rule>, k: nat)
    requires k < |rs|
    requires forall i :: 0 <= i < |rs| && i != k ==> rs[i].advice != rs[k].advice
    ensures rs[k].advice in Pushed(rs) <==> rs[k].fires
  {
    PushedMembers(rs);
  }

  /** Which advice is among the fired ones: each rule's exactly when its
      condition holds, the news advice never for a platform other than
      Twitter, and at most one entry per rule. */
  lemma FiredByRule(platform: string, responses: ResponseSet, riskLevel: Scoring.RiskLevel)
    ensures var fired := Fired(platform, responses, riskLevel);
      && (TimeLimitAdvice(platform, riskLevel) in fired <==> TimeLimitFires(responses))
      && (MindfulBreakAdvice in fired <==> MindfulBreakFires(responses))
      && (FeedCurationAdvice in fired <==> FeedCurationFires(responses))
      && (EngagementPressureAdvice in fired <==> EngagementPressureFires(responses))
      && (NewsExposureAdvice in fired <==> NewsExposureFires(platform, responses))
      && (platform != "twitter" ==> NewsExposureAdvice !in fired)
      && |fired| <= 5
  {
    var rs := Rules(platform, responses, riskLevel);
    PushedMembers(rs);
    AdviceDistinct(platform, riskLevel);
    PushedHasAdvice(rs, 0);
    PushedHasAdvice(rs, 1);
    PushedHasAdvice(rs, 2);
    PushedHasAdvice(rs, 3);
    PushedHasAdvice(rs, 4);
  }
}

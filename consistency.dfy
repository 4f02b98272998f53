/** The scoring tables and the recommendation rules refer to the form's
    questions by id and to their options by value, in another part of the
    program. These lemmas check every such reference against the catalog. */
module Consistency {
  import opened Catalog
  import Scoring
  import Platforms
  import Recommendations
  import opened Responses

  /** A weighted question names the catalog question `q`, and every answer
      value it lists is one of the options of `q`. */
  predicate Names(w: Scoring.QuestionWeight, q: Question) {
    && w.id == q.id
    && (forall v :: v in w.positive ==> v in q.options)
    && (forall v :: v in w.negative ==> v in q.options)
    && (forall v :: v in w.risk ==> v in q.options)
  }

  /** Every weighted question names some question of the catalog. */
  predicate Refers(weights: seq<Scoring.QuestionWeight>, questions: seq<Question>) {
    forall i :: 0 <= i < |weights| ==> exists j :: 0 <= j < |questions| && Names(weights[i], questions[j])
  }

  lemma InstagramHead()
    ensures Names(Scoring.InstagramScoring()[0], InstagramQuestions()[0])
    ensures Names(Scoring.InstagramScoring()[1], InstagramQuestions()[1])
    ensures Names(Scoring.InstagramScoring()[2], InstagramQuestions()[3])
  {
  }

  lemma InstagramTail()
    ensures Names(Scoring.InstagramScoring()[3], InstagramQuestions()[4])
    ensures Names(Scoring.InstagramScoring()[4], InstagramQuestions()[6])
  {
  }

  lemma InstagramRefers()
    ensures Refers(Scoring.InstagramScoring(), InstagramQuestions())
  {
    InstagramHead();
    InstagramTail();
  }

  lemma FacebookHead()
    ensures Names(Scoring.FacebookScoring()[0], FacebookQuestions()[2])
    ensures Names(Scoring.FacebookScoring()[1], FacebookQuestions()[3])
    ensures Names(Scoring.FacebookScoring()[2], FacebookQuestions()[4])
  {
  }

  lemma FacebookTail()
    ensures Names(Scoring.FacebookScoring()[3], FacebookQuestions()[5])
    ensures Names(Scoring.FacebookScoring()[4], FacebookQuestions()[7])
  {
  }

  lemma FacebookRefers()
    ensures Refers(Scoring.FacebookScoring(), FacebookQuestions())
  {
    FacebookHead();
    FacebookTail();
  }

  lemma SnapchatHead()
    ensures Names(Scoring.SnapchatScoring()[0], SnapchatQuestions()[0])
    ensures Names(Scoring.SnapchatScoring()[1], SnapchatQuestions()[2])
    ensures Names(Scoring.SnapchatScoring()[2], SnapchatQuestions()[4])
  {
  }

  lemma SnapchatTail()
    ensures Names(Scoring.SnapchatScoring()[3], SnapchatQuestions()[6])
    ensures Names(Scoring.SnapchatScoring()[4], SnapchatQuestions()[7])
  {
  }

  lemma SnapchatRefers()
    ensures Refers(Scoring.SnapchatScoring(), SnapchatQuestions())
  {
    SnapchatHead();
    SnapchatTail();
  }

  lemma TwitterHead()
    ensures Names(Scoring.TwitterScoring()[0], TwitterQuestions()[0])
    ensures Names(Scoring.TwitterScoring()[1], TwitterQuestions()[2])
    ensures Names(Scoring.TwitterScoring()[2], TwitterQuestions()[3])
  {
  }

  lemma TwitterTail()
    ensures Names(Scoring.TwitterScoring()[3], TwitterQuestions()[4])
    ensures Names(Scoring.TwitterScoring()[4], TwitterQuestions()[7])
  {
  }

  lemma TwitterRefers()
    ensures Refers(Scoring.TwitterScoring(), TwitterQuestions())
  {
    TwitterHead();
    TwitterTail();
  }

  /** For every platform name, each weighted question of the scoring table is
      a question the form asks, and each answer value the table lists is an
      option the form offers for it. */
  lemma ScoringRefersToCatalog(platform: string)
    ensures Refers(Scoring.PlatformScoring(platform), QuestionsForPlatform(platform))
  {
    if platform == "instagram" {
      InstagramRefers();
    } else if platform == "facebook" {
      FacebookRefers();
    } else if platform == "snapchat" {
      SnapchatRefers();
    } else if platform == "twitter" {
      TwitterRefers();
    }
  }

  /** `q` is a question of `platform`'s catalog that offers `value`. */
  predicate Offers(platform: string, id: string, value: string) {
    var qs := QuestionsForPlatform(platform);
    exists j :: 0 <= j < |qs| && qs[j].id == id && value in qs[j].options
  }

  /** Every answer a recommendation rule tests for is one the form offers:
      for each value a rule compares against, a submission holding just that
      answer makes the rule fire, and some platform's form offers that value
      for that question. */
  lemma RuleAnswersOffered()
    ensures Offers("instagram", "usage_frequency", "regularly")
      && Recommendations.TimeLimitFires(map["usage_frequency" := Str("regularly")])
    ensures Offers("snapchat", "daily_usage", "more_2hours")
      && Recommendations.TimeLimitFires(map["daily_usage" := Str("more_2hours")])
    ensures Offers("instagram", "feeling_after", "drained")
      && Recommendations.MindfulBreakFires(map["feeling_after" := Str("drained")])
    ensures Offers("snapchat", "emotional_effect", "drained")
      && Recommendations.MindfulBreakFires(map["emotional_effect" := Str("drained")])
    ensures Offers("facebook", "comparing_life", "frequently")
      && Recommendations.FeedCurationFires(map["comparing_life" := Str("frequently")])
    ensures Offers("facebook", "comparing_life", "almost_always")
      && Recommendations.FeedCurationFires(map["comparing_life" := Str("almost_always")])
    ensures Offers("instagram", "engagement_importance", "affected")
      && Recommendations.EngagementPressureFires(map["engagement_importance" := Str("affected")])
    ensures Offers("snapchat", "streak_breaks", "upset")
      && Recommendations.EngagementPressureFires(map["streak_breaks" := Str("upset")])
    ensures Offers("twitter", "online_arguments", "significantly")
      && Recommendations.NewsExposureFires("twitter", map["online_arguments" := Str("significantly")])
    ensures Offers("twitter", "trending_topics", "very_often")
      && Recommendations.NewsExposureFires("twitter", map["trending_topics" := Str("very_often")])
  {
    TimeAndBreakAnswersOffered();
    FeedAndPressureAnswersOffered();
    NewsAnswersOffered();
  }

  /** The answers the time-limit and mindful-break rules test for. */
  lemma TimeAndBreakAnswersOffered()
    ensures Offers("instagram", "usage_frequency", "regularly")
      && Recommendations.TimeLimitFires(map["usage_frequency" := Str("regularly")])
    ensures Offers("snapchat", "daily_usage", "more_2hours")
      && Recommendations.TimeLimitFires(map["daily_usage" := Str("more_2hours")])
    ensures Offers("instagram", "feeling_after", "drained")
      && Recommendations.MindfulBreakFires(map["feeling_after" := Str("drained")])
    ensures Offers("snapchat", "emotional_effect", "drained")
      && Recommendations.MindfulBreakFires(map["emotional_effect" := Str("drained")])
  {
    OfferedAt("instagram", 1, "regularly");
    OfferedAt("snapchat", 0, "more_2hours");
    OfferedAt("instagram", 3, "drained");
    OfferedAt("snapchat", 6, "drained");
  }

  /** The answers the feed-curation and engagement-pressure rules test for. */
  lemma FeedAndPressureAnswersOffered()
    ensures Offers("facebook", "comparing_life", "frequently")
      && Recommendations.FeedCurationFires(map["comparing_life" := Str("frequently")])
    ensures Offers("facebook", "comparing_life", "almost_always")
      && Recommendations.FeedCurationFires(map["comparing_life" := Str("almost_always")])
    ensures Offers("instagram", "engagement_importance", "affected")
      && Recommendations.EngagementPressureFires(map["engagement_importance" := Str("affected")])
    ensures Offers("snapchat", "streak_breaks", "upset")
      && Recommendations.EngagementPressureFires(map["streak_breaks" := Str("upset")])
  {
    OfferedAt("facebook", 3, "frequently");
    OfferedAt("facebook", 3, "almost_always");
    OfferedAt("instagram", 6, "affected");
    OfferedAt("snapchat", 2, "upset");
  }

  /** The answers the Twitter news-exposure rule tests for. */
  lemma NewsAnswersOffered()
    ensures Offers("twitter", "online_arguments", "significantly")
      && Recommendations.NewsExposureFires("twitter", map["online_arguments" := Str("significantly")])
    ensures Offers("twitter", "trending_topics", "very_often")
      && Recommendations.NewsExposureFires("twitter", map["trending_topics" := Str("very_often")])
  {
    OfferedAt("twitter", 4, "significantly");
    OfferedAt("twitter", 3, "very_often");
  }

  lemma OfferedAt(platform: string, j: nat, value: string)
    requires j < |QuestionsForPlatform(platform)|
    requires value in QuestionsForPlatform(platform)[j].options
    ensures Offers(platform, QuestionsForPlatform(platform)[j].id, value)
  {
  }
}

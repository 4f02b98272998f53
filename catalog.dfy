/** The question catalog of the assessment form: for each platform an ordered
    list of questions, each with four answer options. The order is the order in
    which the form asks them. */
module Catalog {
  import Platforms

  /** A question of the form, by its response key and the values of its four
      options in display order. */
  datatype Question = Question(id: string, options: seq<string>)

  /** A catalog entry: every question offers exactly four options. */
  function Ask(id: string, a: string, b: string, c: string, d: string): (q: Question)
    ensures q.id == id && |q.options| == 4
  {
    Question(id, [a, b, c, d])
  }

  predicate UniqueIds(qs: seq<Question>) {
    forall i, j :: 0 <= i < j < |qs| ==> qs[i].id != qs[j].id
  }

  /** `getQuestionsForPlatform`: the catalog entry, or no questions at all for a
      name the catalog does not know. */
  function QuestionsForPlatform(platform: string): (qs: seq<Question>)
    ensures !Platforms.IsKnown(platform) ==> qs == []
    ensures platform == "instagram" ==> |qs| == 9
    ensures platform == "facebook" || platform == "snapchat" || platform == "twitter" ==> |qs| == 10
    ensures forall i :: 0 <= i < |qs| ==> |qs[i].options| == 4
    ensures UniqueIds(qs)
  {
    if platform == "instagram" then InstagramQuestions()
    else if platform == "facebook" then FacebookQuestions()
    else if platform == "snapchat" then SnapchatQuestions()
    else if platform == "twitter" then TwitterQuestions()
    else []
  }

  function InstagramQuestions(): (qs: seq<Question>)
    ensures |qs| == 9
    ensures forall i :: 0 <= i < |qs| ==> |qs[i].options| == 4
    ensures UniqueIds(qs)
  {
    [ InstagramCurrentExperience,
      InstagramUsageFrequency,
      InstagramContentType,
      InstagramFeelingAfter,
      InstagramSelfImageInfluence,
      InstagramPersonalGrowth,
      InstagramEngagementImportance,
      InstagramBoundaries,
      InstagramSupportInterest
    ]
  }

  function FacebookQuestions(): (qs: seq<Question>)
    ensures |qs| == 10
    ensures forall i :: 0 <= i < |qs| ==> |qs[i].options| == 4
    ensures UniqueIds(qs)
  {
    [ FacebookCheckFrequency,
      FacebookMainUse,
      FacebookFeelingAfter,
      FacebookComparingLife,
      FacebookMeaningfulTime,
      FacebookInteractionsInfluence,
      FacebookFamilyPostsTrigger,
      FacebookSupportOrDistract,
      FacebookGroupsSupport,
      FacebookWellnessTips
    ]
  }

  function SnapchatQuestions(): (qs: seq<Question>)
    ensures |qs| == 10
    ensures forall i :: 0 <= i < |qs| ==> |qs[i].options| == 4
    ensures UniqueIds(qs)
  {
    [ SnapchatDailyUsage,
      SnapchatPrimaryUse,
      SnapchatStreakBreaks,
      SnapchatFeelLeftOut,
      SnapchatAppearingPerfect,
      SnapchatFeelUnderstood,
      SnapchatEmotionalEffect,
      SnapchatImpactGoals,
      SnapchatRealSelf,
      SnapchatBalanceTips
    ]
  }

  function TwitterQuestions(): (qs: seq<Question>)
    ensures |qs| == 10
    ensures forall i :: 0 <= i < |qs| ==> |qs[i].options| == 4
    ensures UniqueIds(qs)
  {
    [ TwitterExperience,
      TwitterContentInteraction,
      TwitterFeelingAfter,
      TwitterTrendingTopics,
      TwitterOnlineArguments,
      TwitterExpressEmotions,
      TwitterPressureRespond,
      TwitterFocusWellbeing,
      TwitterFeelSafe,
      TwitterStressStrategies
    ]
  }

  const InstagramCurrentExperience: Question := Ask("current_experience", "uplifting", "mixed", "overwhelming", "balance")
  const InstagramUsageFrequency: Question := Ask("usage_frequency", "rarely", "occasionally", "few_times", "regularly")
  const InstagramContentType: Question := Ask("content_type", "educational", "fitness", "entertainment", "mixed")
  const InstagramFeelingAfter: Question := Ask("feeling_after", "energized", "neutral", "distracted", "drained")
  const InstagramSelfImageInfluence: Question := Ask("self_image_influence", "not_really", "sometimes", "reflected", "understand_better")
  const InstagramPersonalGrowth: Question := Ask("personal_growth", "supports", "both", "distracts", "realign")
  const InstagramEngagementImportance: Question := Ask("engagement_importance", "not_important", "somewhat", "track", "affected")
  const InstagramBoundaries: Question := Ask("boundaries", "already_take", "considered", "hard_to_step", "help_needed")
  const InstagramSupportInterest: Question := Ask("support_interest", "yes", "maybe", "not_now", "not_sure")
  const FacebookCheckFrequency: Question := Ask("check_frequency", "occasionally", "once_twice", "several_times", "continuously")
  const FacebookMainUse: Question := Ask("main_use", "staying_touch", "sharing_memories", "browsing_groups", "mix_everything")
  const FacebookFeelingAfter: Question := Ask("feeling_after", "connected", "neutral", "distracted", "anxious")
  const FacebookComparingLife: Question := Ask("comparing_life", "not_at_all", "occasionally", "frequently", "almost_always")
  const FacebookMeaningfulTime: Question := Ask("meaningful_time", "very_often", "sometimes", "rarely", "unsure")
  const FacebookInteractionsInfluence: Question := Ask("interactions_influence", "not_really", "occasionally", "sometimes", "frequently")
  const FacebookFamilyPostsTrigger: Question := Ask("family_posts_trigger", "not_at_all", "slightly", "often", "strongly")
  const FacebookSupportOrDistract: Question := Ask("support_or_distract", "supports", "mix_both", "distracts_occasionally", "affects_deeply")
  const FacebookGroupsSupport: Question := Ask("groups_support", "yes_regularly", "sometimes", "rarely", "no")
  const FacebookWellnessTips: Question := Ask("wellness_tips", "yes", "maybe", "not_sure", "no")
  const SnapchatDailyUsage: Question := Ask("daily_usage", "less_30min", "30min_1hour", "1_2hours", "more_2hours")
  const SnapchatPrimaryUse: Question := Ask("primary_use", "staying_connected", "sharing_moments", "exploring_content", "maintaining_streaks")
  const SnapchatStreakBreaks: Question := Ask("streak_breaks", "unaffected", "slightly_concerned", "stressed", "upset")
  const SnapchatFeelLeftOut: Question := Ask("feel_left_out", "never", "rarely", "sometimes", "often")
  const SnapchatAppearingPerfect: Question := Ask("appearing_perfect", "none", "little", "moderate", "lot")
  const SnapchatFeelUnderstood: Question := Ask("feel_understood", "always", "mostly", "sometimes", "rarely")
  const SnapchatEmotionalEffect: Question := Ask("emotional_effect", "happy_connected", "neutral", "mixed_emotions", "drained")
  const SnapchatImpactGoals: Question := Ask("impact_goals", "never", "rarely", "occasionally", "often")
  const SnapchatRealSelf: Question := Ask("real_self", "always", "mostly", "sometimes", "not_really")
  const SnapchatBalanceTips: Question := Ask("balance_tips", "definitely", "maybe", "not_sure", "no")
  const TwitterExperience: Question := Ask("experience", "engaging", "mixed", "intense", "habit")
  const TwitterContentInteraction: Question := Ask("content_interaction", "news", "memes", "discussions", "variety")
  const TwitterFeelingAfter: Question := Ask("feeling_after", "informed", "neutral", "overwhelmed", "unsettled")
  const TwitterTrendingTopics: Question := Ask("trending_topics", "rarely", "sometimes", "frequently", "very_often")
  const TwitterOnlineArguments: Question := Ask("online_arguments", "not_at_all", "occasionally", "sometimes_affect", "significantly")
  const TwitterExpressEmotions: Question := Ask("express_emotions", "never", "rarely", "sometimes", "frequently")
  const TwitterPressureRespond: Question := Ask("pressure_respond", "no_pressure", "mild_pressure", "quite_often", "constantly")
  const TwitterFocusWellbeing: Question := Ask("focus_wellbeing", "helps", "neutral", "bit_distracting", "affects_significantly")
  const TwitterFeelSafe: Question := Ask("feel_safe", "very_safe", "mostly_okay", "sometimes_judged", "exposed_negativity")
  const TwitterStressStrategies: Question := Ask("stress_strategies", "definitely", "maybe", "thinking_about", "not_now")
}

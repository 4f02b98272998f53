/** The four social platforms the questionnaire and the scoring tables know.
    Every lookup keyed by a platform name falls back to an empty list for any
    other name. */
module Platforms {

  predicate IsKnown(platform: string) {
    platform == "instagram" || platform == "facebook" || platform == "snapchat" || platform == "twitter"
  }
}

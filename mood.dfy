/** The mood score of src/types/mood.ts: a number from -1.0 (very negative) to 1.0 (very positive). */
module Mood {

  /** The documented range of a `MoodScore`; the branded type itself does not enforce it. */
  predicate IsMoodScore(x: real)
  {
    -1.0 <= x <= 1.0
  }
}

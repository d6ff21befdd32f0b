/** The score ladder (grams of CO2 to a 0-100 score) and the four
    presentations of a score: colour, rating, letter grade and emoji. */
module Scoring {

  /** The values `CalculateGreenScore` can produce. */
  predicate IsScore(s: int)
  {
    s in {20, 30, 40, 50, 60, 70, 80, 90, 100}
  }

  function Min(a: int, b: int): int
  {
    if a <= b then a else b
  }

  /** Six gram buckets, strict upper bounds 1, 2, 5, 10 and 20; green
      hosting adds 10 points, capped at 100. */
  function CalculateGreenScore(co2Grams: real, isGreen: bool): (score: int)
    ensures IsScore(score)
    ensures !isGreen ==> score in {20, 40, 60, 70, 80, 90}
    ensures isGreen ==> score in {30, 50, 70, 80, 90, 100}
    ensures co2Grams < 1.0 ==> score >= 90
    ensures co2Grams >= 20.0 ==> score <= 30
  {
    var baseScore :=
      if co2Grams < 1.0 then 90
      else if co2Grams < 2.0 then 80
      else if co2Grams < 5.0 then 70
      else if co2Grams < 10.0 then 60
      else if co2Grams < 20.0 then 40
      else 20;
    if isGreen then Min(100, baseScore + 10) else baseScore
  }

  /** The green bonus is the plain score plus 10, never above 100, and never
      lowers the score. */
  lemma GreenBonus(co2Grams: real)
    ensures CalculateGreenScore(co2Grams, true)
         == Min(100, CalculateGreenScore(co2Grams, false) + 10)
    ensures CalculateGreenScore(co2Grams, false) < CalculateGreenScore(co2Grams, true) <= 100
  {
  }

  /** More CO2 never earns a better score. */
  lemma ScoreNonIncreasing(a: real, b: real, isGreen: bool)
    requires a <= b
    ensures CalculateGreenScore(b, isGreen) <= CalculateGreenScore(a, isGreen)
  {
  }

  /** The bucket bounds are strict: a bound itself falls in the worse bucket. */
  lemma BucketEdges()
    ensures CalculateGreenScore(0.999, false) == 90
    ensures CalculateGreenScore(1.0, false) == 80
    ensures CalculateGreenScore(1.999, false) == 80
    ensures CalculateGreenScore(2.0, false) == 70
    ensures CalculateGreenScore(4.999, false) == 70
    ensures CalculateGreenScore(5.0, false) == 60
    ensures CalculateGreenScore(9.999, false) == 60
    ensures CalculateGreenScore(10.0, false) == 40
    ensures CalculateGreenScore(19.99, false) == 40
    ensures CalculateGreenScore(20.0, false) == 20
    ensures CalculateGreenScore(0.0, true) == 100
    ensures CalculateGreenScore(20.0, true) == 30
  {
  }

  /** Each plain score is earned by exactly one band of CO2, bounded
      below inclusively and above strictly. */
  lemma ScoreBands(co2Grams: real)
    ensures CalculateGreenScore(co2Grams, false) == 90 <==> co2Grams < 1.0
    ensures CalculateGreenScore(co2Grams, false) == 80 <==> 1.0 <= co2Grams < 2.0
    ensures CalculateGreenScore(co2Grams, false) == 70 <==> 2.0 <= co2Grams < 5.0
    ensures CalculateGreenScore(co2Grams, false) == 60 <==> 5.0 <= co2Grams < 10.0
    ensures CalculateGreenScore(co2Grams, false) == 40 <==> 10.0 <= co2Grams < 20.0
    ensures CalculateGreenScore(co2Grams, false) == 20 <==> 20.0 <= co2Grams
  {
  }

  // ---------------------------------------------------------------------
  // Tiers. Every presentation splits a score at 90/80/70/60/40; tier 0 is
  // the best of the six, tier 5 the worst.

  const TierFloors: seq<int> := [90, 80, 70, 60, 40]

  /** The first tier whose floor the score reaches, or 5 when it reaches none. */
  function Tier(score: int): (t: nat)
    ensures t <= 5
    ensures t < 5 ==> score >= TierFloors[t]
    ensures forall j :: 0 <= j < t ==> score < TierFloors[j]
  {
    TierFrom(score, 0)
  }

  function TierFrom(score: int, i: nat): (t: nat)
    requires i <= 5
    ensures i <= t <= 5
    ensures t < 5 ==> score >= TierFloors[t]
    ensures forall j :: i <= j < t ==> score < TierFloors[j]
    decreases 5 - i
  {
    if i == 5 then 5
    else if score >= TierFloors[i] then i
    else TierFrom(score, i + 1)
  }

  /** A higher score never lands in a worse tier. */
  lemma TierMonotone(a: int, b: int)
    requires a <= b
    ensures Tier(b) <= Tier(a)
  {
  }

  const ScoreColors: seq<string> := ["#388e3c", "#7cb342", "#c0ca33", "#fbc02d", "#f57c00", "#d32f2f"]
  const ScoreRatings: seq<string> := ["Excellent", "Very Good", "Good", "Fair", "Poor", "Very Poor"]
  const LetterGrades: seq<string> := ["A+", "A", "B", "C", "D", "F"]
  const ScoreEmojis: seq<string> := ["\U{1F31F}", "\U{1F331}", "\U{1F44D}", "\U{26A0}\U{FE0F}", "\U{1F61F}", "\U{1F6A8}"]

  /** Dark green, light green, yellow-green, yellow, orange, red. */
  function ScoreColor(score: int): (color: string)
    ensures color == ScoreColors[Tier(score)]
  {
    if score >= 90 then "#388e3c"
    else if score >= 80 then "#7cb342"
    else if score >= 70 then "#c0ca33"
    else if score >= 60 then "#fbc02d"
    else if score >= 40 then "#f57c00"
    else "#d32f2f"
  }

  function ScoreRating(score: int): (rating: string)
    ensures rating == ScoreRatings[Tier(score)]
  {
    if score >= 90 then "Excellent"
    else if score >= 80 then "Very Good"
    else if score >= 70 then "Good"
    else if score >= 60 then "Fair"
    else if score >= 40 then "Poor"
    else "Very Poor"
  }

  function LetterGrade(score: int): (grade: string)
    ensures grade == LetterGrades[Tier(score)]
  {
    if score >= 90 then "A+"
    else if score >= 80 then "A"
    else if score >= 70 then "B"
    else if score >= 60 then "C"
    else if score >= 40 then "D"
    else "F"
  }

  function ScoreEmoji(score: int): (emoji: string)
    ensures emoji == ScoreEmojis[Tier(score)]
  {
    if score >= 90 then "\U{1F31F}"
    else if score >= 80 then "\U{1F331}"
    else if score >= 70 then "\U{1F44D}"
    else if score >= 60 then "\U{26A0}\U{FE0F}"
    else if score >= 40 then "\U{1F61F}"
    else "\U{1F6A8}"
  }

  // The four presentations always agree: two scores share a colour exactly
  // when they share a tier, and likewise for rating, letter grade and emoji.

  lemma ColorIdentifiesTier(a: int, b: int)
    ensures ScoreColor(a) == ScoreColor(b) <==> Tier(a) == Tier(b)
  {
  }

  lemma RatingIdentifiesTier(a: int, b: int)
    ensures ScoreRating(a) == ScoreRating(b) <==> Tier(a) == Tier(b)
  {
  }

  lemma GradeIdentifiesTier(a: int, b: int)
    ensures LetterGrade(a) == LetterGrade(b) <==> Tier(a) == Tier(b)
  {
  }

  lemma EmojiIdentifiesTier(a: int, b: int)
    ensures ScoreEmoji(a) == ScoreEmoji(b) <==> Tier(a) == Tier(b)
  {
  }

  /** 85 is "Very Good": light green, A, seedling. */
  lemma Score85()
    ensures ScoreColor(85) == "#7cb342" && ScoreRating(85) == "Very Good"
    ensures LetterGrade(85) == "A" && ScoreEmoji(85) == "\U{1F331}"
  {
  }
}

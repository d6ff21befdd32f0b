/** The content script's badge colour: a rating clamped into 0..5 picks one
    of six colours from red to dark green. */
module Badge {

  const BadgeColors: seq<string> := ["#c0392b", "#e67e22", "#f1c40f", "#2ecc71", "#27ae60", "#1e8449"]

  /** `Math.max(0, Math.min(rating, 5))`. */
  function ClampRating(rating: int): (i: nat)
    ensures i <= 5
    ensures 0 <= rating <= 5 ==> i == rating
    ensures rating < 0 ==> i == 0
    ensures rating > 5 ==> i == 5
  {
    var capped := if rating < 5 then rating else 5;
    if capped > 0 then capped else 0
  }

  /** `getBadgeColor`: always one of the six colours; red at or below 0,
      dark green at or above 5, the rating's own entry in between. */
  function GetBadgeColor(rating: int): (color: string)
    ensures color in BadgeColors
    ensures rating <= 0 ==> color == "#c0392b"
    ensures rating >= 5 ==> color == "#1e8449"
    ensures 0 <= rating <= 5 ==> color == BadgeColors[rating]
  {
    BadgeColors[ClampRating(rating)]
  }

  /** A better rating never selects an earlier (redder) entry. */
  lemma ClampMonotone(a: int, b: int)
    requires a <= b
    ensures ClampRating(a) <= ClampRating(b)
  {
  }
}

/**
 * `calculate_color`: a technique's score banded against the largest score into four
 * tiers. The thresholds `max_value * 0.60` and `max_value * 0.40` are compared exactly,
 * as `5 * score >= 3 * max_value` and `5 * score >= 2 * max_value`.
 */
module Colors {

  const Green: string := "#8ec843"
  const Yellow: string := "#edf777"
  const Orange: string := "#ffa500"
  const Red: string := "#ff6666"

  /** The layer's gradient, lowest tier first. */
  const Gradient: seq<string> := [Red, Orange, Yellow, Green]

  function CalculateColor(score: int, maxValue: int): (c: string)
    ensures c in Gradient
  {
    if score == maxValue then Green
    else if 5 * score >= 3 * maxValue then Yellow
    else if 5 * score >= 2 * maxValue then Orange
    else Red
  }

  /** The position of a colour in the gradient; 0 for a colour outside it. */
  function Tier(c: string): nat {
    if c == Green then 3 else if c == Yellow then 2 else if c == Orange then 1 else 0
  }

  lemma ColorsDistinct()
    ensures Red != Orange && Red != Yellow && Red != Green
    ensures Orange != Yellow && Orange != Green && Yellow != Green
  {
    assert Red[3] != Orange[3] && Red[1] != Yellow[1] && Red[1] != Green[1];
    assert Orange[1] != Yellow[1] && Orange[1] != Green[1] && Yellow[1] != Green[1];
  }

  /** Each colour's tier is its position in the layer's gradient. */
  lemma TierIsGradientPosition(score: int, maxValue: int)
    ensures Tier(CalculateColor(score, maxValue)) < |Gradient|
    ensures Gradient[Tier(CalculateColor(score, maxValue))] == CalculateColor(score, maxValue)
  {
    ColorsDistinct();
  }

  /**
   * The four bands: full colour exactly at the maximum; below it, at least 60% of the
   * maximum, at least 40%, or less. Each lower bound is inclusive. (For a negative
   * maximum, which no caller passes, the 60% and 40% marks are in the other order.)
   */
  lemma ColorBands(score: int, maxValue: int)
    requires 0 <= maxValue
    ensures CalculateColor(score, maxValue) == Green <==> score == maxValue
    ensures CalculateColor(score, maxValue) == Yellow <==> score != maxValue && 5 * score >= 3 * maxValue
    ensures CalculateColor(score, maxValue) == Orange <==>
      score != maxValue && 5 * score < 3 * maxValue && 5 * score >= 2 * maxValue
    ensures CalculateColor(score, maxValue) == Red <==> score != maxValue && 5 * score < 2 * maxValue
  {
    ColorsDistinct();
  }

  /** Up to the maximum, a higher score never gets a lower tier. */
  lemma ColorMonotone(s1: int, s2: int, maxValue: int)
    requires 0 <= s1 <= s2 <= maxValue
    ensures Tier(CalculateColor(s1, maxValue)) <= Tier(CalculateColor(s2, maxValue))
  {
    ColorsDistinct();
  }

  /** Only the maximum itself is in the top tier: every score below it is at most yellow. */
  lemma BelowMaxNotTop(score: int, maxValue: int)
    requires score < maxValue
    ensures Tier(CalculateColor(score, maxValue)) <= 2
  {
    ColorsDistinct();
  }
}

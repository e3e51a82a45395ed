/** The polarity-to-label thresholding of `get_sentiment`; the polarity itself comes from an external library. */
module Sentiment {

  const Threshold: real := 0.2

  /** The label for a polarity: strictly above 0.2 is positive, strictly below -0.2 negative, anything else neutral. */
  function SentimentLabel(polarity: real): (sentiment: string)
    ensures sentiment == "positive" <==> polarity > Threshold
    ensures sentiment == "negative" <==> polarity < -Threshold
    ensures sentiment == "neutral" <==> -Threshold <= polarity <= Threshold
  {
    if polarity > Threshold then "positive"
    else if polarity < -Threshold then "negative"
    else "neutral"
  }

  /** The three labels ordered from most negative to most positive. */
  function Rank(sentiment: string): int {
    if sentiment == "negative" then 0 else if sentiment == "neutral" then 1 else 2
  }

  /** A larger polarity never gets a less positive label. */
  lemma SentimentMonotone(p: real, q: real)
    requires p <= q
    ensures Rank(SentimentLabel(p)) <= Rank(SentimentLabel(q))
  {
  }
}

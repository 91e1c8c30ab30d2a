/** `analyzeSentiment`: positive minus negative word hits, scaled by the token count and clamped. */
module Sentiment {
  import opened Text

  const PositiveWords: set<string> := {
    "good", "great", "excellent", "amazing", "wonderful", "fantastic", "awesome",
    "best", "love", "perfect", "beautiful", "brilliant", "outstanding", "superb"
  }

  const NegativeWords: set<string> := {
    "bad", "terrible", "awful", "horrible", "worst", "hate", "poor", "disappointing",
    "useless", "waste", "annoying", "frustrating", "difficult", "problem"
  }

  datatype Label = Positive | Neutral | Negative

  /** `{score, label}`; the field `label` is called `tone` here because `label` is a Dafny keyword. */
  datatype SentimentResult = SentimentResult(score: real, tone: Label)

  /** The change one token makes to the raw score. */
  function WordScore(w: string): int {
    (if w in PositiveWords then 1 else 0) - (if w in NegativeWords then 1 else 0)
  }

  /** The raw score of a token list: hits of the positive set minus hits of the negative set. */
  function RawScore(words: seq<string>): (r: int)
    ensures -|words| <= r <= |words|
  {
    if words == [] then 0 else RawScore(words[..|words| - 1]) + WordScore(words[|words| - 1])
  }

  /** The `words.forEach` accumulation of `score`. */
  method Accumulate(words: seq<string>) returns (score: int)
    ensures score == RawScore(words)
  {
    score := 0;
    var i := 0;
    while i < |words|
      invariant i <= |words|
      invariant score == RawScore(words[..i])
    {
      assert words[..i + 1][..i] == words[..i];
      if words[i] in PositiveWords {
        score := score + 1;
      }
      if words[i] in NegativeWords {
        score := score - 1;
      }
      i := i + 1;
    }
    assert words[..i] == words;
  }

  function Max(a: real, b: real): real { if a >= b then a else b }
  function Min(a: real, b: real): real { if a <= b then a else b }

  /** `Math.max(-1, Math.min(1, raw / Math.max(n / 10, 1)))`. */
  function Normalized(raw: int, n: nat): (s: real)
    ensures -1.0 <= s <= 1.0
  {
    Max(-1.0, Min(1.0, raw as real / Max(n as real / 10.0, 1.0)))
  }

  /** The label thresholds: above 0.1 positive, below -0.1 negative, neutral between. */
  function LabelOf(score: real): (l: Label)
    ensures l == Positive <==> score > 0.1
    ensures l == Negative <==> score < -0.1
    ensures l == Neutral <==> -0.1 <= score <= 0.1
  {
    if score > 0.1 then Positive else if score < -0.1 then Negative else Neutral
  }

  /** `text.toLowerCase().split(/\s+/)`. */
  function Tokens(text: string): seq<string> {
    SplitWs(ToLower(text))
  }

  /** The specification of `AnalyzeSentiment`. */
  function SentimentOf(text: string): SentimentResult {
    var words := Tokens(text);
    var s := Normalized(RawScore(words), |words|);
    SentimentResult(s, LabelOf(s))
  }

  /** `analyzeSentiment(text)`. */
  method AnalyzeSentiment(text: string) returns (r: SentimentResult)
    ensures r == SentimentOf(text)
  {
    var words := Tokens(text);
    var score := Accumulate(words);
    var normalizedScore := Normalized(score, |words|);
    var tone: Label;
    if normalizedScore > 0.1 {
      tone := Positive;
    } else if normalizedScore < -0.1 {
      tone := Negative;
    } else {
      tone := Neutral;
    }
    r := SentimentResult(normalizedScore, tone);
  }

  /** The normalised score has the sign of the raw score and stays within [-1, 1]. */
  lemma NormalizedSign(raw: int, n: nat)
    ensures -1.0 <= Normalized(raw, n) <= 1.0
    ensures Normalized(raw, n) > 0.0 <==> raw > 0
    ensures Normalized(raw, n) < 0.0 <==> raw < 0
    ensures Normalized(raw, n) == 0.0 <==> raw == 0
  {
    var d := Max(n as real / 10.0, 1.0);
    assert d >= 1.0;
    if raw > 0 {
      assert raw as real / d > 0.0;
    } else if raw < 0 {
      assert raw as real / d < 0.0;
    }
  }

  /** With at most ten tokens the divisor is 1, so a net score of +1 or more gives exactly 1 (and -1 or less exactly -1). */
  lemma ShortTextSaturates(raw: int, n: nat)
    requires n <= 10
    ensures raw >= 1 ==> Normalized(raw, n) == 1.0
    ensures raw <= -1 ==> Normalized(raw, n) == -1.0
  {
    assert Max(n as real / 10.0, 1.0) == 1.0;
  }

  /** A text with no word of either set scores 0 and is neutral. */
  lemma {:induction false} NoHitsIsNeutral(words: seq<string>)
    requires forall i :: 0 <= i < |words| ==> words[i] !in PositiveWords && words[i] !in NegativeWords
    ensures RawScore(words) == 0
    ensures Normalized(RawScore(words), |words|) == 0.0
    ensures LabelOf(Normalized(RawScore(words), |words|)) == Neutral
  {
    if words != [] {
      NoHitsIsNeutral(words[..|words| - 1]);
    }
    NormalizedSign(0, |words|);
  }

  /** The result's score lies in [-1, 1], agrees in sign with the raw score, and its label follows the thresholds. */
  lemma SentimentBounds(text: string)
    ensures var r := SentimentOf(text);
      && -1.0 <= r.score <= 1.0
      && (r.score > 0.0 <==> RawScore(Tokens(text)) > 0)
      && (r.score < 0.0 <==> RawScore(Tokens(text)) < 0)
      && (r.tone == Positive <==> r.score > 0.1)
      && (r.tone == Negative <==> r.score < -0.1)
  {
    NormalizedSign(RawScore(Tokens(text)), |Tokens(text)|);
  }
}

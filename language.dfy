/** `detectLanguage`: counts each language's common words among the first hundred tokens. */
module Language {
  import opened Text

  const MaxTokens: nat := 100

  /** `Object.entries(COMMON_WORDS)`, in declaration order. */
  const Codes: seq<string> := ["en", "es", "fr", "de"]

  function CommonWords(lang: nat): seq<string>
    requires lang < |Codes|
  {
    if lang == 0 then ["the", "be", "to", "of", "and", "a", "in", "that", "have", "it"]
    else if lang == 1 then ["el", "la", "de", "que", "y", "a", "en", "un", "ser", "se"]
    else if lang == 2 then ["le", "de", "un", "être", "et", "à", "il", "avoir", "ne", "je"]
    else ["der", "die", "und", "in", "den", "von", "zu", "das", "mit", "sich"]
  }

  datatype LanguageResult = LanguageResult(language: string, confidence: real)

  /** `text.toLowerCase().split(/\s+/).slice(0, 100)`. */
  function Tokens(text: string): (r: seq<string>)
    ensures |r| <= MaxTokens
  {
    var ws := SplitWs(ToLower(text));
    if |ws| <= MaxTokens then ws else ws[..MaxTokens]
  }

  /** `words.filter(w => commonWords.includes(w)).length`. */
  function Hits(words: seq<string>, common: seq<string>): (n: nat)
    ensures n <= |words|
  {
    if words == [] then 0
    else Hits(words[..|words| - 1], common) + (if words[|words| - 1] in common then 1 else 0)
  }

  /** The score of each language code among `words`. */
  function ScoresOf(words: seq<string>): (scores: seq<nat>)
    ensures |scores| == |Codes|
  {
    seq(|Codes|, l requires 0 <= l < |Codes| => Hits(words, CommonWords(l)))
  }

  /** The scores `for (const [lang, commonWords] of ...)` fills, one per language code. */
  method CountHits(words: seq<string>) returns (scores: seq<nat>)
    ensures scores == ScoresOf(words)
  {
    scores := [];
    var l := 0;
    while l < |Codes|
      invariant l <= |Codes| && |scores| == l
      invariant forall k :: 0 <= k < l ==> scores[k] == Hits(words, CommonWords(k))
    {
      var n := 0;
      var i := 0;
      while i < |words|
        invariant i <= |words|
        invariant n == Hits(words[..i], CommonWords(l))
      {
        assert words[..i + 1][..i] == words[..i];
        if words[i] in CommonWords(l) {
          n := n + 1;
        }
        i := i + 1;
      }
      assert words[..i] == words;
      scores := scores + [n];
      l := l + 1;
    }
  }

  /** The first entry after a stable descending sort: the first index holding the largest score. */
  function Best(scores: seq<nat>): (b: nat)
    requires |scores| >= 1
    ensures b < |scores|
    ensures forall l :: 0 <= l < |scores| ==> scores[l] <= scores[b]
    ensures forall l :: 0 <= l < b ==> scores[l] < scores[b]
  {
    if |scores| == 1 then 0
    else
      var b := Best(scores[..|scores| - 1]);
      if scores[|scores| - 1] > scores[b] then |scores| - 1 else b
  }

  /** `Math.min(count / 10, 1)`. */
  function Confidence(count: nat): (c: real)
    ensures count >= 1 ==> 0.1 <= c <= 1.0
  {
    if count as real / 10.0 < 1.0 then count as real / 10.0 else 1.0
  }

  /** The result for the given tokens: the best-scoring code, or English when nothing scores. */
  function Detect(words: seq<string>): LanguageResult {
    var scores := ScoresOf(words);
    var b := Best(scores);
    if scores[b] == 0 then LanguageResult("en", 0.5)
    else LanguageResult(Codes[b], Confidence(scores[b]))
  }

  /** The specification of `DetectLanguage`. */
  function LanguageOf(text: string): LanguageResult {
    Detect(Tokens(text))
  }

  /** `detectLanguage(text)`. */
  method DetectLanguage(text: string) returns (r: LanguageResult)
    ensures r == LanguageOf(text)
  {
    var words := Tokens(text);
    var scores := CountHits(words);
    var b := Best(scores);
    if scores[b] == 0 {
      r := LanguageResult("en", 0.5);
    } else {
      r := LanguageResult(Codes[b], Confidence(scores[b]));
    }
  }

  /** When no language scores, the result is English with confidence 0.5. */
  lemma NoHitsDefaultsToEnglish(words: seq<string>)
    requires forall l :: 0 <= l < |Codes| ==> ScoresOf(words)[l] == 0
    ensures Detect(words) == LanguageResult("en", 0.5)
  {
  }

  /**
   * When some language scores, the winner has the most hits, an earlier language wins a tie
   * and the confidence lies in [0.1, 1].
   */
  lemma WinnerHasMostHits(words: seq<string>, l: nat)
    requires l < |Codes| && ScoresOf(words)[l] > 0
    ensures exists b ::
      && 0 <= b < |Codes|
      && Detect(words).language == Codes[b]
      && ScoresOf(words)[b] >= ScoresOf(words)[l]
      && (forall k :: 0 <= k < b ==> ScoresOf(words)[k] < ScoresOf(words)[b])
    ensures 0.1 <= Detect(words).confidence <= 1.0
  {
    var b := Best(ScoresOf(words));
    assert Detect(words).language == Codes[b];
  }
}

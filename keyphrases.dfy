/** `extractKeyphrases`: the ten most frequent long non-stop words, scored against the most frequent one. */
module Keyphrases {
  import opened Text

  const StopWords: set<string> := {
    "the", "be", "to", "of", "and", "a", "in", "that", "have", "it",
    "for", "not", "on", "with", "he", "as", "you", "do", "at", "this"}

  const MaxPhrases: nat := 10

  /** The filter on the split words: longer than three characters and not a stop word. */
  predicate Kept(w: string) { |w| > 3 && w !in StopWords }

  function KeepWords(ws: seq<string>): (r: seq<string>)
    ensures |r| <= |ws|
    ensures forall k :: 0 <= k < |r| ==> Kept(r[k]) && r[k] in ws
    ensures forall w :: w in ws && Kept(w) ==> w in r
  {
    if ws == [] then []
    else if Kept(ws[0]) then [ws[0]] + KeepWords(ws[1..])
    else KeepWords(ws[1..])
  }

  /** `text.toLowerCase().split(/\s+/).filter(...)`. */
  function Tokens(text: string): (r: seq<string>)
    ensures forall k :: 0 <= k < |r| ==> Kept(r[k]) && NoSpace(r[k])
  {
    SplitWsPiecesHaveNoSpace(ToLower(text));
    KeepWords(SplitWs(ToLower(text)))
  }

  /** The number of occurrences of `w` in `ws`. */
  function Count(ws: seq<string>, w: string): (n: nat)
    ensures n <= |ws|
    ensures n > 0 <==> w in ws
  {
    if ws == [] then 0
    else Count(ws[..|ws| - 1], w) + (if ws[|ws| - 1] == w then 1 else 0)
  }

  /** The distinct words in order of first occurrence: the order in which `wordFreq` gains its keys. */
  function Distinct(ws: seq<string>): (r: seq<string>)
    ensures forall w :: w in r <==> w in ws
    ensures forall i, j :: 0 <= i < j < |r| ==> r[i] != r[j]
  {
    if ws == [] then []
    else
      var prev := Distinct(ws[..|ws| - 1]);
      if ws[|ws| - 1] in ws[..|ws| - 1] then prev else prev + [ws[|ws| - 1]]
  }

  /** The frequency table filled by the `forEach`, with its keys in insertion order. */
  method CountWords(words: seq<string>) returns (freq: map<string, nat>, order: seq<string>)
    ensures order == Distinct(words)
    ensures forall w :: w in freq <==> w in words
    ensures forall w :: w in freq ==> freq[w] == Count(words, w)
  {
    freq := map[];
    order := [];
    var i := 0;
    while i < |words|
      invariant i <= |words|
      invariant order == Distinct(words[..i])
      invariant forall w :: w in freq <==> w in words[..i]
      invariant forall w :: w in freq ==> freq[w] == Count(words[..i], w)
    {
      var w := words[i];
      assert words[..i + 1][..i] == words[..i];
      if w !in freq {
        order := order + [w];
        freq := freq[w := 1];
      } else {
        freq := freq[w := freq[w] + 1];
      }
      i := i + 1;
    }
    assert words[..i] == words;
  }

  datatype Entry = Entry(phrase: string, freq: nat)

  /** `Object.entries(wordFreq)`. */
  function EntriesOf(words: seq<string>): (es: seq<Entry>)
    ensures |es| == |Distinct(words)|
    ensures forall i :: 0 <= i < |es| ==> es[i] == Entry(Distinct(words)[i], Count(words, Distinct(words)[i]))
  {
    var d := Distinct(words);
    seq(|d|, i requires 0 <= i < |d| => Entry(d[i], Count(words, d[i])))
  }

  predicate SortedDesc(es: seq<Entry>) {
    forall i, j :: 0 <= i < j < |es| ==> es[i].freq >= es[j].freq
  }

  /** Places `e`, the last entry seen, after every sorted entry at least as frequent (a stable descending sort). */
  function Insert(e: Entry, s: seq<Entry>): (r: seq<Entry>)
    requires SortedDesc(s)
    ensures |r| == |s| + 1
    ensures r[0] == e || (s != [] && r[0] == s[0])
    ensures SortedDesc(r)
  {
    if s == [] || e.freq > s[0].freq then [e] + s
    else [s[0]] + Insert(e, s[1..])
  }

  lemma {:induction false} InsertPermutes(e: Entry, s: seq<Entry>)
    requires SortedDesc(s)
    ensures multiset(Insert(e, s)) == multiset(s) + multiset{e}
  {
    if s != [] && e.freq <= s[0].freq {
      InsertPermutes(e, s[1..]);
      assert s == [s[0]] + s[1..];
    }
  }

  /** `.sort((a, b) => b[1] - a[1])`: stable, by descending frequency. */
  function SortDesc(es: seq<Entry>): (r: seq<Entry>)
    ensures SortedDesc(r)
    ensures |r| == |es|
  {
    if es == [] then []
    else Insert(es[|es| - 1], SortDesc(es[..|es| - 1]))
  }

  /** The sort is a permutation. */
  lemma {:induction false} SortPermutes(es: seq<Entry>)
    ensures multiset(SortDesc(es)) == multiset(es)
  {
    if es != [] {
      var init := es[..|es| - 1];
      var last := es[|es| - 1];
      SortPermutes(init);
      InsertPermutes(last, SortDesc(init));
      SortSnoc(es);
      MultisetSnoc(es);
    }
  }

  /** The sort of a non-empty list inserts its last entry into the sort of the rest. */
  lemma SortSnoc(es: seq<Entry>)
    requires es != []
    ensures SortDesc(es) == Insert(es[|es| - 1], SortDesc(es[..|es| - 1]))
  {
  }

  lemma MultisetSnoc(es: seq<Entry>)
    requires es != []
    ensures multiset(es) == multiset(es[..|es| - 1]) + multiset{es[|es| - 1]}
  {
    assert es == es[..|es| - 1] + [es[|es| - 1]];
  }

  datatype Keyphrase = Keyphrase(phrase: string, score: real)

  /** The ranked entries kept: `.slice(0, 10)`. */
  function Ranked(text: string): (r: seq<Entry>)
    ensures |r| <= MaxPhrases
    ensures SortedDesc(r)
  {
    var sorted := SortDesc(EntriesOf(Tokens(text)));
    if |sorted| <= MaxPhrases then sorted else sorted[..MaxPhrases]
  }

  /** `sorted[0]?.[1] || 1`. */
  function MaxFreq(top: seq<Entry>): (m: nat)
    ensures m >= 1
  {
    if top != [] && top[0].freq != 0 then top[0].freq else 1
  }

  /** `sorted.map(([phrase, freq]) => ({phrase, score: freq / maxFreq}))`. */
  function Scored(top: seq<Entry>): (r: seq<Keyphrase>)
    ensures |r| == |top|
    ensures forall i :: 0 <= i < |top| ==> r[i] == Keyphrase(top[i].phrase, top[i].freq as real / MaxFreq(top) as real)
  {
    seq(|top|, i requires 0 <= i < |top| => Keyphrase(top[i].phrase, top[i].freq as real / MaxFreq(top) as real))
  }

  lemma RatioBounds(a: real, b: real, m: real)
    requires 1.0 <= m && 1.0 <= b <= a <= m
    ensures 0.0 < b / m <= a / m <= 1.0
  {
    assert a / m * m == a;
    assert b / m * m == b;
  }

  /** Scoring a sorted list of counted entries: the first score is 1, all lie in (0, 1], and they do not increase. */
  lemma {:induction false} ScoredBounds(top: seq<Entry>)
    requires SortedDesc(top) && forall i :: 0 <= i < |top| ==> top[i].freq >= 1
    ensures var r := Scored(top);
      && (r != [] ==> r[0].score == 1.0)
      && (forall i :: 0 <= i < |r| ==> 0.0 < r[i].score <= 1.0)
      && (forall i, j :: 0 <= i < j < |r| ==> r[i].score >= r[j].score)
  {
    var r := Scored(top);
    forall i, j | 0 <= i <= j < |top|
      ensures 0.0 < r[j].score <= r[i].score <= 1.0
    {
      PairBounds(top, i, j);
    }
  }

  lemma PairBounds(top: seq<Entry>, i: nat, j: nat)
    requires SortedDesc(top) && forall i :: 0 <= i < |top| ==> top[i].freq >= 1
    requires i <= j < |top|
    ensures 0.0 < Scored(top)[j].score <= Scored(top)[i].score <= 1.0
  {
    assert top[0].freq >= top[i].freq >= top[j].freq >= 1;
    assert MaxFreq(top) == top[0].freq;
    RatioBounds(top[i].freq as real, top[j].freq as real, top[0].freq as real);
  }

  /** The specification of `ExtractKeyphrases`. */
  function KeyphrasesOf(text: string): seq<Keyphrase> {
    Scored(Ranked(text))
  }

  /** `extractKeyphrases(text)`. */
  method ExtractKeyphrases(text: string) returns (keyphrases: seq<Keyphrase>)
    ensures keyphrases == KeyphrasesOf(text)
  {
    var words := Tokens(text);
    var freq, order := CountWords(words);
    var entries := seq(|order|, i requires 0 <= i < |order| => Entry(order[i], freq[order[i]]));
    assert entries == EntriesOf(words);
    var sorted := SortDesc(entries);
    var top := if |sorted| <= MaxPhrases then sorted else sorted[..MaxPhrases];
    var maxFreq := if top != [] && top[0].freq != 0 then top[0].freq else 1;
    keyphrases := seq(|top|, i requires 0 <= i < |top| => Keyphrase(top[i].phrase, top[i].freq as real / maxFreq as real));
    assert keyphrases == Scored(top);
  }

  /** Every entry of a word list counts a word that occurs in it. */
  lemma {:induction false} EntryOccurs(words: seq<string>, e: Entry)
    requires e in multiset(EntriesOf(words))
    ensures e.phrase in words && e.freq == Count(words, e.phrase) && e.freq >= 1
  {
    var es := EntriesOf(words);
    assert e in es;
    var i :| 0 <= i < |es| && es[i] == e;
  }

  /** Each kept phrase is a token of the text, and its frequency is its number of occurrences. */
  lemma RankedAreCounted(text: string, k: nat)
    requires k < |Ranked(text)|
    ensures var e := Ranked(text)[k];
      e.phrase in Tokens(text) && e.freq == Count(Tokens(text), e.phrase) && e.freq >= 1
  {
    var sorted := SortDesc(EntriesOf(Tokens(text)));
    SortPermutes(EntriesOf(Tokens(text)));
    assert Ranked(text)[k] == sorted[k];
    assert sorted[k] in multiset(sorted);
    EntryOccurs(Tokens(text), sorted[k]);
  }

  predicate DistinctPhrases(es: seq<Entry>) {
    forall i, j :: 0 <= i < j < |es| ==> es[i].phrase != es[j].phrase
  }

  /** A permutation of entries with distinct phrases has distinct phrases. */
  lemma {:induction false} PermutationKeepsDistinct(es: seq<Entry>, r: seq<Entry>)
    requires multiset(r) == multiset(es) && DistinctPhrases(es)
    ensures DistinctPhrases(r)
  {
    forall i, j | 0 <= i < j < |r| ensures r[i].phrase != r[j].phrase {
      if r[i].phrase == r[j].phrase {
        assert r[i] in multiset(es) && r[j] in multiset(es);
        var a :| 0 <= a < |es| && es[a] == r[i];
        var b :| 0 <= b < |es| && es[b] == r[j];
        if a == b {
          TwiceInMultiset(r, i, j);
          OnceInMultiset(es, r[i]);
        }
      }
    }
  }

  /** No phrase is ranked twice. */
  lemma {:induction false} RankedDistinct(text: string)
    ensures DistinctPhrases(Ranked(text))
  {
    var es := EntriesOf(Tokens(text));
    var sorted := SortDesc(es);
    SortPermutes(es);
    assert DistinctPhrases(es);
    PermutationKeepsDistinct(es, sorted);
    var top := Ranked(text);
    assert forall i :: 0 <= i < |top| ==> top[i] == sorted[i];
  }

  lemma {:induction false} TwiceInMultiset<T>(s: seq<T>, i: nat, j: nat)
    requires i < j < |s| && s[i] == s[j]
    ensures multiset(s)[s[i]] >= 2
  {
    assert s == s[..i] + [s[i]] + s[i + 1..j] + [s[j]] + s[j + 1..];
  }

  /** An entry sequence built from distinct words holds each entry at most once. */
  lemma {:induction false} OnceInMultiset(es: seq<Entry>, e: Entry)
    requires DistinctPhrases(es)
    ensures multiset(es)[e] <= 1
    decreases |es|
  {
    if es != [] {
      var rest := es[1..];
      assert es == [es[0]] + rest;
      OnceInMultiset(rest, e);
      if es[0] == e {
        assert e !in rest;
      }
    }
  }

  /** At most ten distinct phrases, scores non-increasing, the first exactly 1 and all in (0, 1]. */
  lemma {:induction false} KeyphraseBounds(text: string)
    ensures |KeyphrasesOf(text)| <= MaxPhrases
    ensures forall i, j :: 0 <= i < j < |KeyphrasesOf(text)| ==> KeyphrasesOf(text)[i].phrase != KeyphrasesOf(text)[j].phrase
    ensures KeyphrasesOf(text) != [] ==> KeyphrasesOf(text)[0].score == 1.0
    ensures forall i :: 0 <= i < |KeyphrasesOf(text)| ==> 0.0 < KeyphrasesOf(text)[i].score <= 1.0
    ensures forall i, j :: 0 <= i < j < |KeyphrasesOf(text)| ==> KeyphrasesOf(text)[i].score >= KeyphrasesOf(text)[j].score
  {
    var top := Ranked(text);
    RankedDistinct(text);
    forall i | 0 <= i < |top| ensures top[i].freq >= 1 {
      RankedAreCounted(text, i);
    }
    ScoredBounds(top);
  }

  /** A text none of whose words survives the filter has no keyphrases. */
  lemma {:induction false} NoTokensNoPhrases(text: string)
    requires Tokens(text) == []
    ensures KeyphrasesOf(text) == []
  {
    assert Distinct(Tokens(text)) == [];
  }

  lemma EmptyTextNoPhrases()
    ensures KeyphrasesOf("") == []
  {
    assert SplitWs(ToLower("")) == [""];
    NoTokensNoPhrases("");
  }
}

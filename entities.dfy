/**
 * `extractEntities`: the matches of four patterns, in pattern order, then the capitalised
 * runs of two to four words, cut to fifty. The email, url, money and percentage patterns
 * are not modelled; their matches are an input. The capitalised-run pattern
 * `\b[A-Z][a-z]+(?:\s+[A-Z][a-z]+)+\b` is modelled exactly.
 */
module Entities {
  import opened Wrappers
  import opened Text

  const MaxEntities: nat := 50
  const MaxProperNounWords: nat := 4

  datatype Kind = Email | Url | Money | Percentage | ProperNoun

  /** The `type` string of an entity. */
  function KindName(k: Kind): string {
    match k
    case Email => "email"
    case Url => "url"
    case Money => "money"
    case Percentage => "percentage"
    case ProperNoun => "proper_noun"
  }

  /** The position of a kind in the order entities are pushed. */
  function Rank(k: Kind): nat {
    match k
    case Email => 0
    case Url => 1
    case Money => 2
    case Percentage => 3
    case ProperNoun => 4
  }

  datatype Entity = Entity(text: string, kind: Kind)

  /** One match `text[start..end]` of a pattern. */
  datatype Span = Span(start: nat, end: nat)

  /** The matches of each of the four patterns, each in text order. */
  datatype PatternMatches = PatternMatches(email: seq<Span>, url: seq<Span>, money: seq<Span>, percentage: seq<Span>)

  predicate SpansIn(spans: seq<Span>, n: nat) {
    forall i :: 0 <= i < |spans| ==> spans[i].start <= spans[i].end <= n
  }

  /** What `matchAll` guarantees: every match lies inside the text. */
  predicate MatchesIn(m: PatternMatches, n: nat) {
    SpansIn(m.email, n) && SpansIn(m.url, n) && SpansIn(m.money, n) && SpansIn(m.percentage, n)
  }

  /** `Object.entries(ENTITY_PATTERNS)`, in declaration order. */
  const PatternKinds: seq<Kind> := [Email, Url, Money, Percentage]

  function SpansOf(m: PatternMatches, l: nat): seq<Span>
    requires l < |PatternKinds|
  {
    if l == 0 then m.email else if l == 1 then m.url else if l == 2 then m.money else m.percentage
  }

  /** The entities `{ text: match[0], type }` of one pattern's matches. */
  function Tagged(text: string, spans: seq<Span>, k: Kind): (es: seq<Entity>)
    requires SpansIn(spans, |text|)
    ensures |es| == |spans|
    ensures forall i :: 0 <= i < |spans| ==> es[i] == Entity(text[spans[i].start..spans[i].end], k)
  {
    seq(|spans|, i requires 0 <= i < |spans| => Entity(text[spans[i].start..spans[i].end], k))
  }

  /** The entities of the first `l` patterns. */
  function PatternEntities(text: string, m: PatternMatches, l: nat): seq<Entity>
    requires MatchesIn(m, |text|) && l <= |PatternKinds|
  {
    if l == 0 then []
    else PatternEntities(text, m, l - 1) + Tagged(text, SpansOf(m, l - 1), PatternKinds[l - 1])
  }

  /** A word of the capitalised pattern starts at `q`: `[A-Z][a-z]`. */
  predicate WordAt(s: string, q: nat) {
    q + 1 < |s| && IsUpper(s[q]) && IsLower(s[q + 1])
  }

  /** The end of the run of lower-case letters from `q`. */
  function LowerEnd(s: string, q: nat): (e: nat)
    requires q <= |s|
    ensures q <= e <= |s|
    ensures forall i :: q <= i < e ==> IsLower(s[i])
    ensures e == |s| || !IsLower(s[e])
    decreases |s| - q
  {
    if q < |s| && IsLower(s[q]) then LowerEnd(s, q + 1) else q
  }

  /** The end of the run of `\s` from `q`. */
  function SpaceEnd(s: string, q: nat): (e: nat)
    requires q <= |s|
    ensures q <= e <= |s|
    ensures forall i :: q <= i < e ==> IsSpace(s[i])
    ensures e == |s| || !IsSpace(s[e])
    decreases |s| - q
  {
    if q < |s| && IsSpace(s[q]) then SpaceEnd(s, q + 1) else q
  }

  /**
   * The ends of the words of the longest chain `[A-Z][a-z]+(\s+[A-Z][a-z]+)*` from `q`;
   * the greedy `[a-z]+` and `\s+` always take whole runs.
   */
  function Chain(s: string, q: nat): (ends: seq<nat>)
    requires WordAt(s, q)
    ensures |ends| >= 1
    ensures forall j :: 0 <= j < |ends| ==> q + 2 <= ends[j] <= |s|
    decreases |s| - q
  {
    var e := LowerEnd(s, q + 1);
    var t := SpaceEnd(s, e);
    if t > e && WordAt(s, t) then [e] + Chain(s, t) else [e]
  }

  /**
   * The end of the capitalised-run match that starts at `p`, if any. The closing `\b` fails
   * when a word character follows the last word, and the regex then backtracks to the
   * word before it; a match needs at least two words.
   */
  function RunAt(s: string, p: nat): (r: Option<nat>)
    ensures r.Some? ==> WordAt(s, p) && exists j :: 1 <= j < |Chain(s, p)| && r.value == Chain(s, p)[j]
    ensures r.Some? ==> p < r.value <= |s|
  {
    if !(WordAt(s, p) && (p == 0 || !IsWordChar(s[p - 1]))) then None
    else
      var ends := Chain(s, p);
      var k := |ends|;
      if ends[k - 1] == |s| || !IsWordChar(s[ends[k - 1]]) then
        if k >= 2 then Some(ends[k - 1]) else None
      else if k >= 3 then Some(ends[k - 2])
      else None
  }

  /** The number of pieces `split(/\s+/)` makes of a match. */
  function WordCount(s: string, p: nat, e: nat): nat
    requires p <= e <= |s|
  {
    |SplitWs(s[p..e])|
  }

  /** The entity of the match `s[p..e]`, kept when it has at most four words. */
  function Kept(s: string, p: nat, e: nat): (r: seq<Entity>)
    requires p <= e <= |s|
    ensures |r| <= 1
  {
    if WordCount(s, p, e) <= MaxProperNounWords then [Entity(s[p..e], ProperNoun)] else []
  }

  /** The kept capitalised runs of `s` from position `p`: the global scan resumes at each match's end. */
  function ProperNounsFrom(s: string, p: nat): seq<Entity>
    decreases |s| - p
  {
    if p >= |s| then []
    else match RunAt(s, p)
      case None => ProperNounsFrom(s, p + 1)
      case Some(e) => Kept(s, p, e) + ProperNounsFrom(s, e)
  }

  /** Every entity pushed, before the cut. */
  function AllEntities(text: string, m: PatternMatches): seq<Entity>
    requires MatchesIn(m, |text|)
  {
    PatternEntities(text, m, |PatternKinds|) + ProperNounsFrom(text, 0)
  }

  /** The specification of `ExtractEntities`: the first fifty of all entities. */
  function EntitiesOf(text: string, m: PatternMatches): (es: seq<Entity>)
    requires MatchesIn(m, |text|)
    ensures |es| <= MaxEntities
    ensures |es| <= |AllEntities(text, m)| && es == AllEntities(text, m)[..|es|]
    ensures |es| < MaxEntities ==> es == AllEntities(text, m)
  {
    var all := AllEntities(text, m);
    if |all| <= MaxEntities then all else all[..MaxEntities]
  }

  /** The inner `for (const match of matches)` loop of one pattern. */
  method PushTagged(prefix: seq<Entity>, text: string, spans: seq<Span>, k: Kind) returns (all: seq<Entity>)
    requires SpansIn(spans, |text|)
    ensures all == prefix + Tagged(text, spans, k)
  {
    all := prefix;
    var i := 0;
    while i < |spans|
      invariant i <= |spans|
      invariant all == prefix + Tagged(text, spans[..i], k)
    {
      assert Tagged(text, spans[..i + 1], k) == Tagged(text, spans[..i], k) + [Entity(text[spans[i].start..spans[i].end], k)];
      all := all + [Entity(text[spans[i].start..spans[i].end], k)];
      i := i + 1;
    }
    assert spans[..i] == spans;
  }

  /** The loop over the capitalised-run matches, keeping those of at most four words. */
  method ScanProperNouns(text: string) returns (nouns: seq<Entity>)
    ensures nouns == ProperNounsFrom(text, 0)
  {
    nouns := [];
    var pos := 0;
    while pos < |text|
      invariant pos <= |text|
      invariant nouns + ProperNounsFrom(text, pos) == ProperNounsFrom(text, 0)
      decreases |text| - pos
    {
      var r := RunAt(text, pos);
      ScanStep(text, pos);
      if r.Some? {
        var e := r.value;
        Assoc(nouns, Kept(text, pos, e), ProperNounsFrom(text, e));
        nouns := nouns + Kept(text, pos, e);
        pos := e;
      } else {
        pos := pos + 1;
      }
    }
  }

  /** One step of the scan: skip a position, or keep the run that starts there and resume at its end. */
  lemma ScanStep(s: string, p: nat)
    requires p < |s|
    ensures RunAt(s, p).None? ==> ProperNounsFrom(s, p) == ProperNounsFrom(s, p + 1)
    ensures RunAt(s, p).Some? ==> ProperNounsFrom(s, p) == Kept(s, p, RunAt(s, p).value) + ProperNounsFrom(s, RunAt(s, p).value)
  {
  }

  lemma Assoc(a: seq<Entity>, b: seq<Entity>, c: seq<Entity>)
    ensures a + (b + c) == (a + b) + c
  {
  }

  /** `extractEntities(text)`, with the four patterns' matches given. */
  method ExtractEntities(text: string, m: PatternMatches) returns (entities: seq<Entity>)
    requires MatchesIn(m, |text|)
    ensures entities == EntitiesOf(text, m)
  {
    var all: seq<Entity> := [];
    for l := 0 to |PatternKinds|
      invariant all == PatternEntities(text, m, l)
    {
      all := PushTagged(all, text, SpansOf(m, l), PatternKinds[l]);
    }
    var nouns := ScanProperNouns(text);
    all := all + nouns;
    entities := if |all| <= MaxEntities then all else all[..MaxEntities];
  }

  /** A word `[A-Z][a-z]*` has no `\s`. */
  lemma WordNoSpace(s: string, q: nat, e: nat)
    requires q < e <= |s| && IsUpper(s[q]) && forall i :: q < i < e ==> IsLower(s[i])
    ensures NoSpace(s[q..e])
  {
    var w := s[q..e];
    forall i | 0 <= i < |w|
      ensures !IsSpace(w[i])
    {
      assert w[i] == s[q + i];
    }
  }

  /** One step of `Chain`. */
  lemma ChainStep(s: string, q: nat)
    requires WordAt(s, q)
    ensures var e := LowerEnd(s, q + 1);
      && Chain(s, q)[0] == e
      && NoSpace(s[q..e])
      && (|Chain(s, q)| > 1 ==>
        var t := SpaceEnd(s, e);
        t > e && WordAt(s, t) && Chain(s, q)[1..] == Chain(s, t))
  {
    WordNoSpace(s, q, LowerEnd(s, q + 1));
  }

  /** Each prefix of a capitalised chain, cut after its `j`-th word, splits into `j + 1` pieces. */
  lemma {:induction false} ChainWordCount(s: string, q: nat, j: nat)
    requires WordAt(s, q) && j < |Chain(s, q)|
    ensures WordCount(s, q, Chain(s, q)[j]) == j + 1
    decreases |s| - q
  {
    ChainStep(s, q);
    var e := Chain(s, q)[0];
    if j == 0 {
      SplitWsWord(s[q..e]);
    } else {
      var t := SpaceEnd(s, e);
      var end := Chain(s, t)[j - 1];
      assert Chain(s, q)[j] == end;
      ChainWordCount(s, t, j - 1);
      var r := s[t..end];
      assert r[0] == s[t];
      SplitWsWordSpaces(s[q..e], s[e..t], r);
      SliceThree(s, q, e, t, end);
    }
  }

  lemma SliceThree(s: string, q: nat, e: nat, t: nat, end: nat)
    requires q <= e <= t <= end <= |s|
    ensures s[q..end] == s[q..e] + s[e..t] + s[t..end]
  {
  }

  /** A capitalised-run match has at least two words and occurs in the text. */
  lemma RunWords(s: string, p: nat)
    requires RunAt(s, p).Some?
    ensures WordCount(s, p, RunAt(s, p).value) >= 2
    ensures Contains(s, s[p..RunAt(s, p).value])
  {
    var e := RunAt(s, p).value;
    var j :| 1 <= j < |Chain(s, p)| && e == Chain(s, p)[j];
    ChainWordCount(s, p, j);
    ContainsAt(s, s[p..e], p);
  }

  /** A kept capitalised run has between two and four words. */
  lemma {:induction false} ProperNounWords(s: string, p: nat, k: nat)
    requires k < |ProperNounsFrom(s, p)|
    ensures 2 <= |SplitWs(ProperNounsFrom(s, p)[k].text)| <= MaxProperNounWords
    ensures ProperNounsFrom(s, p)[k].kind == ProperNoun
    ensures Contains(s, ProperNounsFrom(s, p)[k].text)
    decreases |s| - p
  {
    var r := RunAt(s, p);
    if r.None? {
      ProperNounWords(s, p + 1, k);
    } else {
      var e := r.value;
      var head := Kept(s, p, e);
      assert ProperNounsFrom(s, p) == head + ProperNounsFrom(s, e);
      if k < |head| {
        RunWords(s, p);
      } else {
        ProperNounWords(s, e, k - |head|);
      }
    }
  }

  /** A capitalised run of more than four words is dropped whole: the scan goes on after it. */
  lemma LongRunDropped(s: string, p: nat)
    requires p < |s| && RunAt(s, p).Some? && WordCount(s, p, RunAt(s, p).value) > MaxProperNounWords
    ensures ProperNounsFrom(s, p) == ProperNounsFrom(s, RunAt(s, p).value)
  {
  }

  predicate KindsOrdered(es: seq<Entity>) {
    forall i, j :: 0 <= i < j < |es| ==> Rank(es[i].kind) <= Rank(es[j].kind)
  }

  lemma {:induction false} PatternEntitiesOrdered(text: string, m: PatternMatches, l: nat)
    requires MatchesIn(m, |text|) && l <= |PatternKinds|
    ensures KindsOrdered(PatternEntities(text, m, l))
    ensures forall i :: 0 <= i < |PatternEntities(text, m, l)| ==>
      Rank(PatternEntities(text, m, l)[i].kind) < l
    ensures forall i :: 0 <= i < |PatternEntities(text, m, l)| ==>
      Contains(text, PatternEntities(text, m, l)[i].text)
  {
    if l > 0 {
      PatternEntitiesOrdered(text, m, l - 1);
      var a := PatternEntities(text, m, l - 1);
      var spans := SpansOf(m, l - 1);
      var b := Tagged(text, spans, PatternKinds[l - 1]);
      assert forall i :: 0 <= i < |b| ==> Rank(b[i].kind) == l - 1;
      forall i | 0 <= i < |b|
        ensures Contains(text, b[i].text)
      {
        ContainsAt(text, b[i].text, spans[i].start);
      }
      assert PatternEntities(text, m, l) == a + b;
    }
  }

  /**
   * At most fifty entities, which are the first of those pushed; pattern entities come in the
   * order email, url, money, percentage and before every proper noun; every entity's text
   * occurs in the input, and a proper noun has two to four words.
   */
  lemma EntitiesShape(text: string, m: PatternMatches)
    requires MatchesIn(m, |text|)
    ensures var es := EntitiesOf(text, m);
      && KindsOrdered(es)
      && (forall i :: 0 <= i < |es| ==> Contains(text, es[i].text))
      && (forall i :: 0 <= i < |es| && es[i].kind == ProperNoun ==> 2 <= |SplitWs(es[i].text)| <= MaxProperNounWords)
  {
    AllShape(text, m);
    PrefixShape(text, AllEntities(text, m), EntitiesOf(text, m));
  }

  /** The shape of a list of entities found in `text`. */
  predicate Shaped(text: string, es: seq<Entity>) {
    && KindsOrdered(es)
    && (forall i :: 0 <= i < |es| ==> Contains(text, es[i].text))
    && (forall i :: 0 <= i < |es| && es[i].kind == ProperNoun ==> 2 <= |SplitWs(es[i].text)| <= MaxProperNounWords)
  }

  lemma PrefixShape(text: string, all: seq<Entity>, es: seq<Entity>)
    requires Shaped(text, all) && |es| <= |all| && es == all[..|es|]
    ensures Shaped(text, es)
  {
    assert forall i :: 0 <= i < |es| ==> es[i] == all[i];
  }

  lemma AllShape(text: string, m: PatternMatches)
    requires MatchesIn(m, |text|)
    ensures Shaped(text, AllEntities(text, m))
  {
    PatternEntitiesOrdered(text, m, |PatternKinds|);
    var b := ProperNounsFrom(text, 0);
    forall k | 0 <= k < |b|
      ensures b[k].kind == ProperNoun && Contains(text, b[k].text)
      ensures 2 <= |SplitWs(b[k].text)| <= MaxProperNounWords
    {
      ProperNounWords(text, 0, k);
    }
    ConcatShape(text, PatternEntities(text, m, |PatternKinds|), b);
  }

  /** Pattern entities (ranked below proper nouns) followed by proper nouns keep the shape. */
  lemma ConcatShape(text: string, a: seq<Entity>, b: seq<Entity>)
    requires KindsOrdered(a)
    requires forall i :: 0 <= i < |a| ==> Rank(a[i].kind) < 4 && Contains(text, a[i].text)
    requires forall k :: 0 <= k < |b| ==> b[k].kind == ProperNoun && Contains(text, b[k].text)
    requires forall k :: 0 <= k < |b| ==> 2 <= |SplitWs(b[k].text)| <= MaxProperNounWords
    ensures Shaped(text, a + b)
  {
    var all := a + b;
    assert forall i :: 0 <= i < |a| ==> all[i] == a[i];
    assert forall i :: |a| <= i < |all| ==> all[i] == b[i - |a|];
  }
}

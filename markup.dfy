/**
 * The tag-shaped regular expressions the adapters and the readability extractor use:
 * `<name[^>]*>([\s\S]*?)<\/name>` (with or without the `[^>]*`, with or without the `i` flag),
 * `<[^>]+>` and `href=["']([^"']*)["']`. Each search is the leftmost match, the body is the
 * shortest one (lazy), and a global search resumes where the previous match ended.
 */
module Markup {
  import opened Wrappers
  import opened Text

  /** `attrs`: the opening tag may carry attributes (`[^>]*`); `ci`: the `i` flag. */
  datatype TagPattern = TagPattern(name: string, attrs: bool, ci: bool)

  /** A match `s[start..end]` whose captured body is `s[innerStart..innerEnd]`. */
  datatype TagMatch = TagMatch(start: nat, innerStart: nat, innerEnd: nat, end: nat)

  predicate WellPlaced(m: TagMatch, p: nat, n: nat) {
    p <= m.start < m.innerStart <= m.innerEnd < m.end <= n
  }

  /** `s[p..]` begins with `lit`, compared case-insensitively when `ci`. */
  predicate MatchesAt(s: string, p: nat, lit: string, ci: bool) {
    p + |lit| <= |s| && (if ci then ToLower(s[p..p + |lit|]) == ToLower(lit) else s[p..p + |lit|] == lit)
  }

  /** The first position at or after `from` where `lit` occurs. */
  function IndexFrom(s: string, lit: string, ci: bool, from: nat): (r: Option<nat>)
    ensures r.Some? ==> from <= r.value && MatchesAt(s, r.value, lit, ci)
    ensures r.Some? ==> forall q :: from <= q < r.value ==> !MatchesAt(s, q, lit, ci)
    ensures r.None? ==> forall q :: from <= q ==> !MatchesAt(s, q, lit, ci)
    decreases |s| - from
  {
    if from + |lit| > |s| then None
    else if MatchesAt(s, from, lit, ci) then Some(from)
    else IndexFrom(s, lit, ci, from + 1)
  }

  /** The first position at or after `from` holding `c`. */
  function IndexOfChar(s: string, c: char, from: nat): (r: Option<nat>)
    ensures r.Some? ==> from <= r.value < |s| && s[r.value] == c
    ensures r.Some? ==> forall q :: from <= q < r.value ==> s[q] != c
    ensures r.None? ==> forall q :: from <= q < |s| ==> s[q] != c
    decreases |s| - from
  {
    if from >= |s| then None
    else if s[from] == c then Some(from)
    else IndexOfChar(s, c, from + 1)
  }

  /** The position just after an opening tag `<name…>` that starts at `p`. */
  function OpenEnd(s: string, pat: TagPattern, p: nat): (r: Option<nat>)
    ensures r.Some? ==> p + |pat.name| + 2 <= r.value <= |s| && s[r.value - 1] == '>'
    ensures r.Some? ==> MatchesAt(s, p, "<" + pat.name, pat.ci)
  {
    var q := p + 1 + |pat.name|;
    if !MatchesAt(s, p, "<" + pat.name, pat.ci) then None
    else if !pat.attrs then (if q < |s| && s[q] == '>' then Some(q + 1) else None)
    else match IndexOfChar(s, '>', q)
      case None => None
      case Some(g) => Some(g + 1)
  }

  function CloseTag(name: string): string { "</" + name + ">" }

  /** The match of `pat` that starts exactly at `p`, if any. */
  function MatchAt(s: string, pat: TagPattern, p: nat): (r: Option<TagMatch>)
    ensures r.Some? ==> WellPlaced(r.value, p, |s|) && r.value.start == p
    ensures r.Some? ==> MatchesAt(s, r.value.innerEnd, CloseTag(pat.name), pat.ci)
    ensures r.Some? ==> r.value.end == r.value.innerEnd + |CloseTag(pat.name)|
  {
    match OpenEnd(s, pat, p)
    case None => None
    case Some(b) =>
      match IndexFrom(s, CloseTag(pat.name), pat.ci, b)
      case None => None
      case Some(e) => Some(TagMatch(p, b, e, e + |CloseTag(pat.name)|))
  }

  /** The leftmost match at or after `p`. */
  function FindFrom(s: string, pat: TagPattern, p: nat): (r: Option<TagMatch>)
    ensures r.Some? ==> WellPlaced(r.value, p, |s|) && MatchAt(s, pat, r.value.start) == r
    ensures r.Some? ==> forall q :: p <= q < r.value.start ==> MatchAt(s, pat, q).None?
    ensures r.None? ==> forall q :: p <= q ==> MatchAt(s, pat, q).None?
    decreases |s| - p
  {
    if p >= |s| then None
    else match MatchAt(s, pat, p)
      case Some(m) => Some(m)
      case None => FindFrom(s, pat, p + 1)
  }

  /** Every match of a global search that begins at `p`, in order. */
  function AllFrom(s: string, pat: TagPattern, p: nat): (r: seq<TagMatch>)
    ensures forall k :: 0 <= k < |r| ==> WellPlaced(r[k], p, |s|)
    ensures forall k :: 0 <= k < |r| - 1 ==> r[k].end <= r[k + 1].start
    decreases |s| - p
  {
    match FindFrom(s, pat, p)
    case None => []
    case Some(m) => [m] + AllFrom(s, pat, m.end)
  }

  /**
   * `while ((m = re.exec(s)) !== null)` pushing `f(body)` whenever it is present: the values
   * built from the bodies of the global search from `p` on.
   */
  function CollectFrom<T>(s: string, pat: TagPattern, f: string -> Option<T>, p: nat): seq<T>
    decreases |s| - p
  {
    match FindFrom(s, pat, p)
    case None => []
    case Some(m) =>
      var rest := CollectFrom(s, pat, f, m.end);
      match f(Inner(s, m))
      case None => rest
      case Some(v) => [v] + rest
  }

  /** The exec loop: it computes `CollectFrom(s, pat, f, 0)`. */
  method Collect<T>(s: string, pat: TagPattern, f: string -> Option<T>) returns (items: seq<T>)
    ensures items == CollectFrom(s, pat, f, 0)
  {
    items := [];
    var pos := 0;
    while true
      invariant pos <= |s|
      invariant items + CollectFrom(s, pat, f, pos) == CollectFrom(s, pat, f, 0)
      decreases |s| - pos
    {
      var found := FindFrom(s, pat, pos);
      if found.None? {
        break;
      }
      var m := found.value;
      var built := f(s[m.innerStart..m.innerEnd]);
      if built.Some? {
        assert CollectFrom(s, pat, f, pos) == [built.value] + CollectFrom(s, pat, f, m.end);
        items := items + [built.value];
      }
      pos := m.end;
    }
  }

  /** A builder that never drops a body yields one value per match, in match order. */
  lemma {:induction false} CollectEveryMatch<T>(s: string, pat: TagPattern, f: string -> Option<T>, p: nat)
    requires forall b :: f(b).Some?
    ensures var ms := AllFrom(s, pat, p);
      |CollectFrom(s, pat, f, p)| == |ms|
      && forall k :: 0 <= k < |ms| ==> CollectFrom(s, pat, f, p)[k] == f(Inner(s, ms[k])).value
    decreases |s| - p
  {
    match FindFrom(s, pat, p)
    case None =>
    case Some(m) =>
      CollectEveryMatch(s, pat, f, m.end);
  }

  /** Every collected value is built from the body of some match, and its builder kept it. */
  lemma {:induction false} CollectedFromSomeMatch<T>(s: string, pat: TagPattern, f: string -> Option<T>, p: nat, k: nat)
    requires k < |CollectFrom(s, pat, f, p)|
    ensures exists m :: m in AllFrom(s, pat, p) && f(Inner(s, m)) == Some(CollectFrom(s, pat, f, p)[k])
    decreases |s| - p
  {
    match FindFrom(s, pat, p)
    case None =>
    case Some(m) =>
      var rest := CollectFrom(s, pat, f, m.end);
      match f(Inner(s, m))
      case None =>
        CollectedFromSomeMatch(s, pat, f, m.end, k);
        var m' :| m' in AllFrom(s, pat, m.end) && f(Inner(s, m')) == Some(rest[k]);
        assert m' in AllFrom(s, pat, p);
      case Some(v) =>
        if k == 0 {
          assert m in AllFrom(s, pat, p);
        } else {
          CollectedFromSomeMatch(s, pat, f, m.end, k - 1);
          var m' :| m' in AllFrom(s, pat, m.end) && f(Inner(s, m')) == Some(rest[k - 1]);
          assert m' in AllFrom(s, pat, p);
        }
  }

  /** The captured body of a match. */
  function Inner(s: string, m: TagMatch): string
    requires m.innerStart <= m.innerEnd <= |s|
  {
    s[m.innerStart..m.innerEnd]
  }

  /** `s.replace(/<[^>]+>/g, rep)`. */
  function ReplaceTags(s: string, rep: string): (r: string)
    ensures rep == "" ==> |r| <= |s|
    decreases |s|
  {
    if s == [] then []
    else if s[0] == '<' then
      match IndexOfChar(s, '>', 1)
      case Some(g) => if g >= 2 then rep + ReplaceTags(s[g + 1..], rep) else [s[0]] + ReplaceTags(s[1..], rep)
      case None => [s[0]] + ReplaceTags(s[1..], rep)
    else [s[0]] + ReplaceTags(s[1..], rep)
  }

  lemma {:induction false} ReplaceTagsKeepsPlainText(s: string, rep: string)
    requires '<' !in s
    ensures ReplaceTags(s, rep) == s
    decreases |s|
  {
    if s != [] {
      ReplaceTagsKeepsPlainText(s[1..], rep);
    }
  }

  /**
   * `t` holds no match of `<[^>]+>`: every `<` is directly followed by `>`, or no `>` follows it
   * at all (a match needs a `<`, at least one character other than `>`, then the first `>`).
   */
  predicate TagFree(t: string) {
    forall p :: 0 <= p < |t| && t[p] == '<' ==> (p + 1 < |t| && t[p + 1] == '>') || '>' !in t[p + 1..]
  }

  lemma TagFreeAppend(a: string, b: string)
    requires '<' !in a && TagFree(b)
    ensures TagFree(a + b)
  {
    forall p | 0 <= p < |a + b| && (a + b)[p] == '<'
      ensures (p + 1 < |a + b| && (a + b)[p + 1] == '>') || '>' !in (a + b)[p + 1..]
    {
      if p >= |a| {
        assert b[p - |a|] == '<';
        assert (a + b)[p + 1..] == b[p - |a| + 1..];
      }
    }
  }

  lemma TagFreeSlice(t: string, i: nat, j: nat)
    requires TagFree(t) && i <= j <= |t|
    ensures TagFree(t[i..j])
  {
    var u := t[i..j];
    forall p | 0 <= p < |u| && u[p] == '<'
      ensures (p + 1 < |u| && u[p + 1] == '>') || '>' !in u[p + 1..]
    {
      assert t[i + p] == '<';
      if '>' in u[p + 1..] {
        var k :| 0 <= k < |u[p + 1..]| && u[p + 1..][k] == '>';
        assert t[i + p + 1..][k] == '>';
      }
    }
  }

  /** Trimming takes a slice, so it keeps a string free of tags. */
  lemma TrimKeepsTagFree(x: string)
    requires TagFree(x)
    ensures TagFree(Trim(x))
  {
    var u := TrimStart(x);
    TagFreeSlice(x, |x| - |u|, |x|);
    TagFreeSlice(u, 0, |TrimEnd(u)|);
  }

  /** A string with no `>` holds no tag to replace. */
  lemma {:induction false} ReplaceTagsWithoutClose(t: string, rep: string)
    requires '>' !in t
    ensures ReplaceTags(t, rep) == t
    decreases |t|
  {
    if t != [] {
      assert '>' !in t[1..] by {
        assert forall x :: x in t[1..] ==> x in t;
      }
      if t[0] == '<' {
        assert IndexOfChar(t, '>', 1).None?;
      }
      ReplaceTagsWithoutClose(t[1..], rep);
    }
  }

  /** With a replacement that holds no `<`, the result of `ReplaceTags` holds no tag. */
  lemma {:induction false} ReplaceTagsLeavesNoTag(s: string, rep: string)
    requires '<' !in rep
    ensures TagFree(ReplaceTags(s, rep))
    decreases |s|
  {
    if s == [] {
    } else if s[0] == '<' {
      match IndexOfChar(s, '>', 1)
      case Some(g) =>
        if g >= 2 {
          ReplaceTagsLeavesNoTag(s[g + 1..], rep);
          TagFreeAppend(rep, ReplaceTags(s[g + 1..], rep));
        } else {
          var rest := ReplaceTags(s[1..], rep);
          ReplaceTagsLeavesNoTag(s[1..], rep);
          assert s[1..][0] == '>';
          assert rest[0] == '>';
          var r := [s[0]] + rest;
          forall p | 0 <= p < |r| && r[p] == '<'
            ensures (p + 1 < |r| && r[p + 1] == '>') || '>' !in r[p + 1..]
          {
            if p > 0 {
              assert r[p + 1..] == rest[p..];
            }
          }
        }
      case None =>
        assert '>' !in s[1..];
        ReplaceTagsWithoutClose(s[1..], rep);
        var r := [s[0]] + s[1..];
        assert r == s;
        forall p | 0 <= p < |r| && r[p] == '<'
          ensures (p + 1 < |r| && r[p + 1] == '>') || '>' !in r[p + 1..]
        {
          assert forall x :: x in r[p + 1..] ==> x in s[1..];
        }
    } else {
      ReplaceTagsLeavesNoTag(s[1..], rep);
      TagFreeAppend([s[0]], ReplaceTags(s[1..], rep));
    }
  }

  /** A string without tags is left as it is; so `ReplaceTags` is idempotent for a replacement without `<`. */
  lemma {:induction false} ReplaceTagsFixesTagFree(t: string, rep: string)
    requires TagFree(t)
    ensures ReplaceTags(t, rep) == t
    decreases |t|
  {
    if t != [] {
      TagFreeSlice(t, 1, |t|);
      ReplaceTagsFixesTagFree(t[1..], rep);
      if t[0] == '<' {
        var g := IndexOfChar(t, '>', 1);
        if g.Some? && g.value >= 2 {
          assert false;
        }
      }
      assert t == [t[0]] + t[1..];
    }
  }

  lemma ReplaceTagsIdempotent(s: string, rep: string)
    requires '<' !in rep
    ensures ReplaceTags(ReplaceTags(s, rep), rep) == ReplaceTags(s, rep)
  {
    ReplaceTagsLeavesNoTag(s, rep);
    ReplaceTagsFixesTagFree(ReplaceTags(s, rep), rep);
  }

  /** `s.replace(/<name[^>]*>[\s\S]*?<\/name>/gi, '')`: every block is removed. */
  function RemoveBlocks(s: string, pat: TagPattern): (r: string)
    ensures |r| <= |s|
    decreases |s|
  {
    match FindFrom(s, pat, 0)
    case None => s
    case Some(m) => s[..m.start] + RemoveBlocks(s[m.end..], pat)
  }

  /** `RemoveBlocks` changes its input exactly when the input holds a block. */
  lemma RemoveBlocksChangesIffBlock(s: string, pat: TagPattern)
    ensures RemoveBlocks(s, pat) == s <==> FindFrom(s, pat, 0).None?
  {
    match FindFrom(s, pat, 0)
    case None =>
    case Some(m) =>
      assert |RemoveBlocks(s[m.end..], pat)| <= |s| - m.end;
  }

  /** Without an opening `<name` there is no match. */
  lemma {:induction false} NoOpeningNoMatch(s: string, pat: TagPattern, p: nat)
    requires forall q :: !MatchesAt(s, q, "<" + pat.name, pat.ci)
    ensures FindFrom(s, pat, p).None?
    decreases |s| - p
  {
    if p < |s| {
      assert MatchAt(s, pat, p).None?;
      NoOpeningNoMatch(s, pat, p + 1);
    }
  }

  lemma OpeningBAt(s: string, q: nat)
    requires q + 2 <= |s|
    ensures MatchesAt(s, q, "<b", true) <==> ToLowerChar(s[q]) == '<' && ToLowerChar(s[q + 1]) == 'b'
  {
    var w := s[q..q + 2];
    assert ToLower(w) == [ToLowerChar(s[q]), ToLowerChar(s[q + 1])];
    assert ToLower("<b") == "<b";
  }

  lemma SpliceInnerBlock()
    ensures MatchAt("<<b></b>b></b>", TagPattern("b", true, true), 1) == Some(TagMatch(1, 4, 4, 8))
  {
    var s := "<<b></b>b></b>";
    assert "<" + TagPattern("b", true, true).name == "<b";
    OpeningBAt(s, 1);
    assert IndexOfChar(s, '>', 3) == Some(3);
    assert OpenEnd(s, TagPattern("b", true, true), 1) == Some(4);
    assert CloseTag("b") == "</b>";
    assert ToLower(s[4..8]) == ToLower("</b>");
    assert IndexFrom(s, "</b>", true, 4) == Some(4);
  }

  lemma SpliceNoBlockAtStart()
    ensures MatchAt("<<b></b>b></b>", TagPattern("b", true, true), 0).None?
  {
    var s := "<<b></b>b></b>";
    assert "<" + TagPattern("b", true, true).name == "<b";
    OpeningBAt(s, 0);
    assert OpenEnd(s, TagPattern("b", true, true), 0).None?;
  }

  lemma SpliceFirstBlock()
    ensures FindFrom("<<b></b>b></b>", TagPattern("b", true, true), 0) == Some(TagMatch(1, 4, 4, 8))
  {
    var s := "<<b></b>b></b>";
    var pat := TagPattern("b", true, true);
    SpliceNoBlockAtStart();
    SpliceInnerBlock();
    assert FindFrom(s, pat, 1) == Some(TagMatch(1, 4, 4, 8));
  }

  lemma SpliceTailHasNoBlock()
    ensures FindFrom("b></b>", TagPattern("b", true, true), 0).None?
    ensures RemoveBlocks("b></b>", TagPattern("b", true, true)) == "b></b>"
  {
    var t := "b></b>";
    assert "<" + TagPattern("b", true, true).name == "<b";
    forall q: nat
      ensures !MatchesAt(t, q, "<b", true)
    {
      if q + 2 <= |t| {
        OpeningBAt(t, q);
      }
    }
    NoOpeningNoMatch(t, TagPattern("b", true, true), 0);
  }

  lemma SplicedBlock()
    ensures MatchAt("<b></b>", TagPattern("b", true, true), 0) == Some(TagMatch(0, 3, 3, 7))
    ensures FindFrom("<b></b>", TagPattern("b", true, true), 0).Some?
  {
    var u := "<b></b>";
    assert "<" + TagPattern("b", true, true).name == "<b";
    OpeningBAt(u, 0);
    assert IndexOfChar(u, '>', 2) == Some(2);
    assert OpenEnd(u, TagPattern("b", true, true), 0) == Some(3);
    assert CloseTag("b") == "</b>";
    assert ToLower(u[3..7]) == ToLower("</b>");
    assert IndexFrom(u, "</b>", true, 3) == Some(3);
  }

  lemma SpliceRemovalStep()
    ensures RemoveBlocks("<<b></b>b></b>", TagPattern("b", true, true))
         == "<" + RemoveBlocks("b></b>", TagPattern("b", true, true))
  {
    var s := "<<b></b>b></b>";
    SpliceFirstBlock();
    assert s[..1] == "<" && s[8..] == "b></b>";
  }

  lemma SpliceJoin()
    ensures "<" + "b></b>" == "<b></b>"
  {
  }

  /**
   * The single pass does not re-scan its output: removing the inner block of `<<b></b>b></b>`
   * joins `<` and `b></b>` into a new block `<b></b>`.
   */
  lemma RemoveBlocksCanLeaveABlock()
    ensures var pat := TagPattern("b", true, true);
      RemoveBlocks("<<b></b>b></b>", pat) == "<b></b>" && FindFrom("<b></b>", pat, 0).Some?
  {
    SpliceRemovalStep();
    SpliceTailHasNoBlock();
    SpliceJoin();
    SplicedBlock();
  }

  /** The text between the quotes of the first `href="…"` or `href='…'` (either quote may close). */
  function HrefFrom(t: string, q: nat): (r: Option<string>)
    decreases |t| - q
  {
    if q + 6 > |t| then None
    else if MatchesAt(t, q, "href=", true) && IsQuote(t[q + 5]) then
      match FirstQuote(t, q + 6)
      case Some(e) => Some(t[q + 6..e])
      case None => HrefFrom(t, q + 1)
    else HrefFrom(t, q + 1)
  }

  predicate IsQuote(c: char) { c == '"' || c == '\'' }

  function FirstQuote(t: string, from: nat): (r: Option<nat>)
    ensures r.Some? ==> from <= r.value < |t| && IsQuote(t[r.value])
    ensures r.Some? ==> forall i :: from <= i < r.value ==> !IsQuote(t[i])
    decreases |t| - from
  {
    if from >= |t| then None
    else if IsQuote(t[from]) then Some(from)
    else FirstQuote(t, from + 1)
  }

  lemma HrefHasNoQuote(t: string, q: nat)
    ensures HrefFrom(t, q).Some? ==> forall i :: 0 <= i < |HrefFrom(t, q).value| ==> !IsQuote(HrefFrom(t, q).value[i])
    decreases |t| - q
  {
    if q + 6 <= |t| && MatchesAt(t, q, "href=", true) && IsQuote(t[q + 5]) {
      match FirstQuote(t, q + 6)
      case Some(e) =>
      case None => HrefHasNoQuote(t, q + 1);
    } else if q + 6 <= |t| {
      HrefHasNoQuote(t, q + 1);
    }
  }
}

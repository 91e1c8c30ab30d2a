/**
 * JavaScript string primitives the core uses: the `\s` class, `trim`,
 * ASCII `toLowerCase`, `split(/\s+/)`, `split(c)`, `includes`, `join`,
 * `replace(/\s+/g, ' ')` and decimal rendering of integers.
 * A `char` stands for one UTF-16 code unit.
 */
module Text {
  import opened Wrappers

  /** The ECMAScript WhiteSpace and LineTerminator code points (`\s`, and what `trim` removes). */
  predicate IsSpace(c: char) {
    c == ' ' || c == '\t' || c == '\n' || c == '\U{000B}' || c == '\U{000C}' || c == '\r'
    || c == '\U{00A0}' || c == '\U{1680}' || ('\U{2000}' <= c <= '\U{200A}')
    || c == '\U{2028}' || c == '\U{2029}' || c == '\U{202F}' || c == '\U{205F}'
    || c == '\U{3000}' || c == '\U{FEFF}'
  }

  /** The line terminators, which `.` in a regular expression does not match. */
  predicate IsLineTerminator(c: char) {
    c == '\n' || c == '\r' || c == '\U{2028}' || c == '\U{2029}'
  }

  /** `\w` without the `u` flag. */
  predicate IsWordChar(c: char) {
    ('a' <= c <= 'z') || ('A' <= c <= 'Z') || ('0' <= c <= '9') || c == '_'
  }

  predicate IsUpper(c: char) { 'A' <= c <= 'Z' }
  predicate IsLower(c: char) { 'a' <= c <= 'z' }
  predicate IsDigit(c: char) { '0' <= c <= '9' }

  function ToLowerChar(c: char): (r: char)
    ensures IsUpper(c) ==> IsLower(r)
    ensures !IsUpper(c) ==> r == c
    ensures IsSpace(r) <==> IsSpace(c)
  {
    if IsUpper(c) then (c as int + 32) as char else c
  }

  /** `toLowerCase`, ASCII letters only. */
  function ToLower(s: string): (r: string)
    ensures |r| == |s|
    ensures forall i :: 0 <= i < |s| ==> r[i] == ToLowerChar(s[i])
  {
    seq(|s|, i requires 0 <= i < |s| => ToLowerChar(s[i]))
  }

  lemma ToLowerAppend(a: string, b: string)
    ensures ToLower(a + b) == ToLower(a) + ToLower(b)
  {
  }

  lemma ToLowerIdempotent(s: string)
    ensures ToLower(ToLower(s)) == ToLower(s)
  {
  }

  /** Drops the leading run of `\s` characters. */
  function TrimStart(s: string): (r: string)
    ensures |r| <= |s| && r == s[|s| - |r|..]
    ensures r == [] || !IsSpace(r[0])
    ensures forall i :: 0 <= i < |s| - |r| ==> IsSpace(s[i])
    decreases |s|
  {
    if |s| > 0 && IsSpace(s[0]) then TrimStart(s[1..]) else s
  }

  /** Drops the trailing run of `\s` characters. */
  function TrimEnd(s: string): (r: string)
    ensures |r| <= |s| && r == s[..|r|]
    ensures r == [] || !IsSpace(r[|r| - 1])
    ensures forall i :: |r| <= i < |s| ==> IsSpace(s[i])
    decreases |s|
  {
    if |s| > 0 && IsSpace(s[|s| - 1]) then TrimEnd(s[..|s| - 1]) else s
  }

  /** `String.prototype.trim`. */
  function Trim(s: string): (r: string)
    ensures |r| <= |s|
    ensures r == [] || (!IsSpace(r[0]) && !IsSpace(r[|r| - 1]))
  {
    TrimEnd(TrimStart(s))
  }

  lemma TrimPrependSpace(c: char, s: string)
    requires IsSpace(c)
    ensures Trim([c] + s) == Trim(s)
  {
    assert ([c] + s)[1..] == s;
  }

  lemma {:induction false} TrimStartAppendSpace(s: string, c: char)
    requires IsSpace(c)
    ensures TrimStart(s + [c]) == if TrimStart(s) == [] then [] else TrimStart(s) + [c]
    decreases |s|
  {
    if |s| > 0 && IsSpace(s[0]) {
      assert (s + [c])[1..] == s[1..] + [c];
      TrimStartAppendSpace(s[1..], c);
    } else if |s| == 0 {
      assert TrimStart([c]) == TrimStart([c][1..]);
    }
  }

  lemma TrimAppendSpace(s: string, c: char)
    requires IsSpace(c)
    ensures Trim(s + [c]) == Trim(s)
  {
    TrimStartAppendSpace(s, c);
    var t := TrimStart(s);
    if t != [] {
      assert (t + [c])[..|t|] == t;
    }
  }

  predicate NoSpace(s: string) {
    forall i :: 0 <= i < |s| ==> !IsSpace(s[i])
  }

  lemma TrimNoSpace(s: string)
    requires NoSpace(s)
    ensures Trim(s) == s
  {
  }

  /** `s.split(/\s+/)`: the pieces between maximal runs of `\s`. */
  function SplitWs(s: string): (r: seq<string>)
    ensures |r| >= 1
    decreases |s|
  {
    if s == [] then [""]
    else if IsSpace(s[0]) then [""] + SplitWs(TrimStart(s))
    else
      var rest := SplitWs(s[1..]);
      [[s[0]] + rest[0]] + rest[1..]
  }

  lemma {:induction false} SplitWsPiecesHaveNoSpace(s: string)
    ensures forall k :: 0 <= k < |SplitWs(s)| ==> NoSpace(SplitWs(s)[k])
    decreases |s|
  {
    if s == [] {
    } else if IsSpace(s[0]) {
      SplitWsPiecesHaveNoSpace(TrimStart(s));
    } else {
      SplitWsPiecesHaveNoSpace(s[1..]);
    }
  }

  /** A leading space-free piece becomes the head of the first piece. */
  lemma {:induction false} SplitWsWordThen(w: string, t: string)
    requires NoSpace(w)
    ensures SplitWs(w + t) == [w + SplitWs(t)[0]] + SplitWs(t)[1..]
    decreases |w|
  {
    var r := SplitWs(t);
    if w == [] {
      assert w + t == t;
      assert w + r[0] == r[0];
      assert [r[0]] + r[1..] == r;
    } else {
      var s := w + t;
      assert s[0] == w[0] && !IsSpace(s[0]);
      assert s[1..] == w[1..] + t;
      SplitWsWordThen(w[1..], t);
      var rest := SplitWs(s[1..]);
      assert rest == [w[1..] + r[0]] + r[1..];
      assert SplitWs(s) == [[s[0]] + rest[0]] + rest[1..];
      assert rest[0] == w[1..] + r[0] && rest[1..] == r[1..];
      assert [w[0]] + (w[1..] + r[0]) == w + r[0];
    }
  }

  lemma {:induction false} TrimStartSpaces(ws: string, r: string)
    requires forall i :: 0 <= i < |ws| ==> IsSpace(ws[i])
    requires r == [] || !IsSpace(r[0])
    ensures TrimStart(ws + r) == r
  {
    if ws == [] {
      assert ws + r == r;
    } else {
      assert (ws + r)[1..] == ws[1..] + r;
      TrimStartSpaces(ws[1..], r);
    }
  }

  /** A space-free word, a run of `\s` and a rest that starts with a non-space split as the word followed by the rest's pieces. */
  lemma SplitWsWordSpaces(w: string, ws: string, r: string)
    requires NoSpace(w) && ws != [] && forall i :: 0 <= i < |ws| ==> IsSpace(ws[i])
    requires r == [] || !IsSpace(r[0])
    ensures SplitWs(w + ws + r) == [w] + SplitWs(r)
  {
    TrimStartSpaces(ws, r);
    assert SplitWs(ws + r) == [""] + SplitWs(r);
    SplitWsWordThen(w, ws + r);
    assert w + ws + r == w + (ws + r);
    assert w + "" == w;
  }

  /** A space-free string is a single piece. */
  lemma SplitWsWord(w: string)
    requires NoSpace(w) && w != []
    ensures SplitWs(w) == [w]
  {
    SplitWsWordThen(w, []);
    assert w + [] == w;
  }

  /** The non-empty pieces of `s.split(/\s+/)`. */
  function Words(s: string): (r: seq<string>)
    ensures forall k :: 0 <= k < |r| ==> r[k] != ""
  {
    NonEmpty(SplitWs(s))
  }

  function NonEmpty(ps: seq<string>): (r: seq<string>)
    ensures |r| <= |ps|
    ensures forall k :: 0 <= k < |r| ==> r[k] != "" && r[k] in ps
    ensures forall p :: p in ps && p != "" ==> p in r
  {
    if ps == [] then []
    else if ps[0] == "" then NonEmpty(ps[1..])
    else [ps[0]] + NonEmpty(ps[1..])
  }

  /** `s.split(c)` for a one-character literal separator. */
  function SplitOn(s: string, c: char): (r: seq<string>)
    ensures |r| >= 1
  {
    if s == [] then [""]
    else if s[0] == c then [""] + SplitOn(s[1..], c)
    else
      var rest := SplitOn(s[1..], c);
      [[s[0]] + rest[0]] + rest[1..]
  }

  /** `parts.join(sep)`. */
  function Join(parts: seq<string>, sep: string): (r: string)
  {
    if |parts| == 0 then ""
    else if |parts| == 1 then parts[0]
    else parts[0] + sep + Join(parts[1..], sep)
  }

  lemma {:induction false} SplitOnJoin(s: string, c: char)
    ensures Join(SplitOn(s, c), [c]) == s
  {
    if s != [] {
      SplitOnJoin(s[1..], c);
      var rest := SplitOn(s[1..], c);
      if s[0] != c {
        JoinConsHead(s[0], rest, [c]);
      } else {
        JoinConsEmpty(rest, [c]);
      }
      assert s == [s[0]] + s[1..];
    }
  }

  /** No piece of `s.split(c)` holds a `c`. */
  lemma {:induction false} SplitOnPieces(s: string, c: char)
    ensures forall k :: 0 <= k < |SplitOn(s, c)| ==> c !in SplitOn(s, c)[k]
  {
    if s != [] {
      SplitOnPieces(s[1..], c);
    }
  }

  lemma JoinConsHead(x: char, rest: seq<string>, sep: string)
    requires |rest| >= 1
    ensures Join([[x] + rest[0]] + rest[1..], sep) == [x] + Join(rest, sep)
  {
    var p := [[x] + rest[0]] + rest[1..];
    if |rest| > 1 {
      assert p[1..] == rest[1..];
      assert Join(p, sep) == p[0] + sep + Join(rest[1..], sep);
    }
  }

  lemma JoinConsEmpty(rest: seq<string>, sep: string)
    requires |rest| >= 1
    ensures Join([""] + rest, sep) == sep + Join(rest, sep)
  {
    assert ([""] + rest)[1..] == rest;
  }

  /** Splitting after a separator-free piece yields that piece, then the split of the rest. */
  lemma {:induction false} SplitOnAfterPiece(a: string, c: char, b: string)
    requires c !in a
    ensures SplitOn(a + [c] + b, c) == [a] + SplitOn(b, c)
    decreases |a|
  {
    if a == [] {
      assert a + [c] + b == [c] + b;
      assert ([c] + b)[1..] == b;
    } else {
      assert (a + [c] + b)[1..] == a[1..] + [c] + b;
      SplitOnAfterPiece(a[1..], c, b);
      assert [a[0]] + a[1..] == a;
    }
  }

  lemma {:induction false} SplitOnNoSeparator(a: string, c: char)
    requires c !in a
    ensures SplitOn(a, c) == [a]
    decreases |a|
  {
    if a != [] {
      SplitOnNoSeparator(a[1..], c);
      assert [a[0]] + a[1..] == a;
    }
  }

  /** Joining separator-free pieces and splitting again gives the pieces back. */
  lemma {:induction false} SplitOnJoinPieces(parts: seq<string>, c: char)
    requires |parts| >= 1
    requires forall k :: 0 <= k < |parts| ==> c !in parts[k]
    ensures SplitOn(Join(parts, [c]), c) == parts
  {
    if |parts| == 1 {
      SplitOnNoSeparator(parts[0], c);
    } else {
      SplitOnJoinPieces(parts[1..], c);
      SplitOnAfterPiece(parts[0], c, Join(parts[1..], [c]));
      assert [parts[0]] + parts[1..] == parts;
    }
  }

  predicate StartsWith(s: string, p: string) {
    |p| <= |s| && s[..|p|] == p
  }

  /** `s.includes(p)`. */
  predicate Contains(s: string, p: string)
    decreases |s|
  {
    StartsWith(s, p) || (|s| > 0 && Contains(s[1..], p))
  }

  lemma {:induction false} ContainsAt(s: string, p: string, i: nat)
    requires i + |p| <= |s| && s[i..i + |p|] == p
    ensures Contains(s, p)
    decreases i
  {
    if i > 0 {
      assert s[1..][i - 1..i - 1 + |p|] == p;
      ContainsAt(s[1..], p, i - 1);
    }
  }

  lemma {:induction false} ContainsWitness(s: string, p: string) returns (i: nat)
    requires Contains(s, p)
    ensures i + |p| <= |s| && s[i..i + |p|] == p
    decreases |s|
  {
    if StartsWith(s, p) {
      i := 0;
    } else {
      var j := ContainsWitness(s[1..], p);
      i := j + 1;
      assert s[1..][j..j + |p|] == s[i..i + |p|];
    }
  }

  /** The first element of `pats` that `s` contains, with its index (the loops that `break` on a hit). */
  function FirstContained(s: string, pats: seq<string>): (r: Option<nat>)
    ensures r.Some? ==> r.value < |pats| && Contains(s, pats[r.value])
    ensures r.Some? ==> forall j :: 0 <= j < r.value ==> !Contains(s, pats[j])
    ensures r.None? ==> forall j :: 0 <= j < |pats| ==> !Contains(s, pats[j])
  {
    if pats == [] then None
    else if Contains(s, pats[0]) then Some(0)
    else match FirstContained(s, pats[1..])
      case None => None
      case Some(k) => Some(k + 1)
  }

  predicate ContainsAny(s: string, pats: seq<string>) {
    exists j :: 0 <= j < |pats| && Contains(s, pats[j])
  }

  /** `s.replace(/\s+/g, ' ')`. */
  function CollapseSpaces(s: string): (r: string)
    ensures |r| <= |s|
    decreases |s|
  {
    if s == [] then []
    else if IsSpace(s[0]) then [' '] + CollapseSpaces(TrimStart(s))
    else [s[0]] + CollapseSpaces(s[1..])
  }

  /** No two adjacent characters are both `\s`, and every `\s` character is a plain space. */
  predicate Collapsed(s: string) {
    (forall i :: 0 <= i < |s| && IsSpace(s[i]) ==> s[i] == ' ')
    && (forall i :: 0 <= i < |s| - 1 ==> !(IsSpace(s[i]) && IsSpace(s[i + 1])))
  }

  lemma {:induction false} CollapseSpacesCollapsed(s: string)
    ensures Collapsed(CollapseSpaces(s))
    ensures CollapseSpaces(s) == [] || (IsSpace(CollapseSpaces(s)[0]) <==> IsSpace(s[0]))
    decreases |s|
  {
    if s == [] {
    } else if IsSpace(s[0]) {
      var t := TrimStart(s);
      CollapseSpacesCollapsed(t);
      assert t == [] || !IsSpace(t[0]);
      ConsCollapsed(' ', CollapseSpaces(t));
    } else {
      CollapseSpacesCollapsed(s[1..]);
      ConsCollapsed(s[0], CollapseSpaces(s[1..]));
    }
  }

  /** One character in front of a collapsed string keeps it collapsed, unless it starts a second space. */
  lemma ConsCollapsed(c: char, r: string)
    requires Collapsed(r) && (IsSpace(c) ==> c == ' ' && (r == [] || !IsSpace(r[0])))
    ensures Collapsed([c] + r)
  {
    var s := [c] + r;
    assert forall i :: 1 <= i < |s| ==> s[i] == r[i - 1];
  }

  lemma {:induction false} CollapseCollapsedIsIdentity(s: string)
    requires Collapsed(s)
    ensures CollapseSpaces(s) == s
    decreases |s|
  {
    if s != [] {
      CollapsedSub(s, 1, |s|);
      assert s == [s[0]] + s[1..];
      if IsSpace(s[0]) {
        assert s[1..] == [] || !IsSpace(s[1..][0]);
        TrimStartSpaces([s[0]], s[1..]);
      }
      CollapseCollapsedIsIdentity(s[1..]);
    }
  }

  lemma TrimStartOfSub(s: string)
    ensures TrimStart(TrimStart(s)) == TrimStart(s)
  {
  }

  lemma {:induction false} CollapsedSub(s: string, i: nat, j: nat)
    requires Collapsed(s) && i <= j <= |s|
    ensures Collapsed(s[i..j])
  {
    var t := s[i..j];
    assert forall k :: 0 <= k < |t| ==> t[k] == s[i + k];
  }

  lemma {:induction false} TrimCollapsed(s: string)
    requires Collapsed(s)
    ensures Collapsed(Trim(s))
  {
    var a := TrimStart(s);
    CollapsedSub(s, |s| - |a|, |s|);
    var b := TrimEnd(a);
    CollapsedSub(a, 0, |b|);
  }

  /** Decimal rendering of a natural number. */
  function NatToString(n: nat): (r: string)
    ensures |r| >= 1
    ensures forall i :: 0 <= i < |r| ==> IsDigit(r[i])
    decreases n
  {
    if n < 10 then [DigitChar(n)] else NatToString(n / 10) + [DigitChar(n % 10)]
  }

  function DigitChar(d: nat): (c: char)
    requires d < 10
    ensures IsDigit(c)
  {
    ('0' as int + d) as char
  }

  function DigitValue(c: char): (d: nat)
    requires IsDigit(c)
    ensures d < 10 && DigitChar(d) == c
  {
    c as int - '0' as int
  }

  /** Parses a string of decimal digits. */
  function ParseDigits(s: string): (n: nat)
    requires forall i :: 0 <= i < |s| ==> IsDigit(s[i])
    decreases |s|
  {
    if s == [] then 0 else ParseDigits(s[..|s| - 1]) * 10 + DigitValue(s[|s| - 1])
  }

  lemma {:induction false} NatToStringRoundTrip(n: nat)
    ensures ParseDigits(NatToString(n)) == n
    decreases n
  {
    if n >= 10 {
      var s := NatToString(n);
      assert s[..|s| - 1] == NatToString(n / 10);
      NatToStringRoundTrip(n / 10);
    }
  }

  /** Decimal rendering of an integer, `-` first when negative (`String(n)`). */
  function IntToString(n: int): (r: string)
    ensures |r| >= 1
    ensures r[0] == '-' <==> n < 0
  {
    if n < 0 then "-" + NatToString(-n) else NatToString(n)
  }

  lemma NatToStringHasNo(n: nat, c: char)
    requires !IsDigit(c)
    ensures c !in NatToString(n)
  {
  }

  lemma IntToStringHasNo(n: int, c: char)
    requires !IsDigit(c) && c != '-'
    ensures c !in IntToString(n)
  {
    NatToStringHasNo(if n < 0 then -n else n, c);
  }

  /** Distinct integers render differently. */
  lemma IntToStringInjective(a: int, b: int)
    requires IntToString(a) == IntToString(b)
    ensures a == b
  {
    if a < 0 && b < 0 {
      assert NatToString(-a) == IntToString(a)[1..] == IntToString(b)[1..] == NatToString(-b);
      NatToStringRoundTrip(-a);
      NatToStringRoundTrip(-b);
    } else if a >= 0 && b >= 0 {
      NatToStringRoundTrip(a);
      NatToStringRoundTrip(b);
    }
  }

  /** `s.replace(/a/g, b)` for single characters. */
  function ReplaceChar(s: string, a: char, b: char): (r: string)
    ensures |r| == |s|
    ensures forall i :: 0 <= i < |s| ==> r[i] == (if s[i] == a then b else s[i])
  {
    seq(|s|, i requires 0 <= i < |s| => if s[i] == a then b else s[i])
  }

  /** Number of occurrences of `c` in `s`. */
  function CountChar(s: string, c: char): (n: nat)
    ensures n <= |s|
  {
    CountFrom(s, 0, c)
  }

  /** Number of occurrences of `c` in `s[i..]`, counted by index. */
  function CountFrom(s: string, i: nat, c: char): (n: nat)
    requires i <= |s|
    ensures n <= |s| - i
    decreases |s| - i
  {
    if i == |s| then 0 else (if s[i] == c then 1 else 0) + CountFrom(s, i + 1, c)
  }

  lemma {:induction false} CountFromShift(a: string, b: string, j: nat, c: char)
    requires j <= |b|
    ensures CountFrom(a + b, |a| + j, c) == CountFrom(b, j, c)
    decreases |b| - j
  {
    if j < |b| {
      assert (a + b)[|a| + j] == b[j];
      CountFromShift(a, b, j + 1, c);
    }
  }

  lemma {:induction false} CountFromAppend(a: string, b: string, i: nat, c: char)
    requires i <= |a|
    ensures CountFrom(a + b, i, c) == CountFrom(a, i, c) + CountFrom(b, 0, c)
    decreases |a| - i
  {
    if i < |a| {
      assert (a + b)[i] == a[i];
      CountFromAppend(a, b, i + 1, c);
    } else {
      CountFromShift(a, b, 0, c);
    }
  }

  lemma CountCharAppend(a: string, b: string, c: char)
    ensures CountChar(a + b, c) == CountChar(a, c) + CountChar(b, c)
  {
    CountFromAppend(a, b, 0, c);
  }

  lemma {:induction false} CountFromAbsent(s: string, i: nat, c: char)
    requires i <= |s| && c !in s
    ensures CountFrom(s, i, c) == 0
    decreases |s| - i
  {
    if i < |s| {
      CountFromAbsent(s, i + 1, c);
    }
  }

  lemma CountCharAbsent(s: string, c: char)
    requires c !in s
    ensures CountChar(s, c) == 0
  {
    CountFromAbsent(s, 0, c);
  }

  /** `s.substring(0, n)`. */
  function Prefix(s: string, n: nat): (r: string)
    ensures |r| == if n < |s| then n else |s|
    ensures r == s[..|r|]
  {
    if n < |s| then s[..n] else s
  }
}

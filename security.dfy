/**
 * `analyzeRequest`, the header risk score, and `getSecurityHeaders`. The regular expressions
 * of the header scan are case-insensitive literals, or two literals with any run of
 * characters other than line terminators between them (`select.*from`); letters are folded
 * with the ASCII `ToLower`.
 */
module Security {
  import opened Wrappers
  import opened Text

  /** The request headers the analysis reads; `None` is a header that was not sent. */
  datatype Headers = Headers(userAgent: Option<string>, xForwardedFor: Option<string>, xRealIp: Option<string>, referer: Option<string>)

  datatype Analysis = Analysis(riskScore: int, threats: seq<string>, recommendations: seq<string>, allowRequest: bool)

  const SuspiciousAgents := ["bot", "crawler", "spider", "scraper", "hack", "attack", "sqlmap", "nikto", "nmap", "curl", "wget"]
  const SuspiciousDomains := ["malware", "phishing", "suspicious", "attack", "hack"]

  datatype AttackPattern = Lit(p: string) | Span(a: string, b: string)

  const AttackPatterns := [
    Lit("script"), Lit("javascript"), Lit("onload"), Lit("onerror"), Lit("onclick"),
    Span("select", "from"), Span("union", "select"), Span("drop", "table"),
    Lit("<script"), Lit("<iframe"), Lit("<object")]

  const MissingAgent := "Missing User-Agent header"
  const Injection := "Potential XSS/SQL injection in headers"

  const BlockAdvice := ["Block request immediately", "Log security incident", "Consider IP blocking"]
  const MonitorAdvice := ["Increase monitoring for this request", "Apply additional rate limiting"]
  const LogAdvice := ["Log for monitoring"]

  /** `a` at `i`, then characters other than line terminators, then `b` at `j`. */
  predicate SpanAt(s: string, a: string, b: string, i: nat, j: nat) {
    && i + |a| <= j && j + |b| <= |s|
    && s[i..i + |a|] == a && s[j..j + |b|] == b
    && forall k :: i + |a| <= k < j ==> !IsLineTerminator(s[k])
  }

  /** `pattern.test(s)` on the lower-cased text. */
  predicate Matches(s: string, pat: AttackPattern) {
    match pat
    case Lit(p) => Contains(s, p)
    case Span(a, b) => exists i: nat, j: nat :: i <= j <= |s| && SpanAt(s, a, b, i, j)
  }

  predicate AnyAttack(s: string) {
    exists k :: 0 <= k < |AttackPatterns| && Matches(s, AttackPatterns[k])
  }

  /** `Object.values(headers).join(' ')` over the headers that were sent, in declaration order. */
  function AllHeaders(h: Headers): string {
    var present := (if h.userAgent.Some? then [h.userAgent.value] else [])
      + (if h.xForwardedFor.Some? then [h.xForwardedFor.value] else [])
      + (if h.xRealIp.Some? then [h.xRealIp.value] else [])
      + (if h.referer.Some? then [h.referer.value] else []);
    Join(present, " ")
  }

  predicate Truthy(s: Option<string>) {
    s.Some? && s.value != ""
  }

  /** The User-Agent check: what it adds to the score and the threat it reports. */
  function AgentFinding(h: Headers): (r: (int, seq<string>))
    ensures r.0 in {0, 20, 30} && |r.1| <= 1 && (r.0 == 0 <==> r.1 == [])
  {
    if !Truthy(h.userAgent) then (20, [MissingAgent])
    else match FirstContained(ToLower(h.userAgent.value), SuspiciousAgents)
      case Some(k) => (30, ["Suspicious User-Agent pattern: " + SuspiciousAgents[k]])
      case None => (0, [])
  }

  function AttackFinding(h: Headers): (r: (int, seq<string>))
    ensures r.0 in {0, 50} && |r.1| <= 1 && (r.0 == 0 <==> r.1 == [])
  {
    if AnyAttack(ToLower(AllHeaders(h))) then (50, [Injection]) else (0, [])
  }

  function RefererFinding(h: Headers): (r: (int, seq<string>))
    ensures r.0 in {0, 40} && |r.1| <= 1 && (r.0 == 0 <==> r.1 == [])
  {
    if !Truthy(h.referer) then (0, [])
    else match FirstContained(ToLower(h.referer.value), SuspiciousDomains)
      case Some(k) => (40, ["Suspicious referer domain: " + SuspiciousDomains[k]])
      case None => (0, [])
  }

  function Recommendations(score: int): (r: seq<string>)
    ensures score > 70 ==> |r| == 3
    ensures 40 < score <= 70 ==> |r| == 2
    ensures 20 < score <= 40 ==> |r| == 1
    ensures score <= 20 ==> r == []
  {
    if score > 70 then BlockAdvice
    else if score > 40 then MonitorAdvice
    else if score > 20 then LogAdvice
    else []
  }

  /** The specification of `AnalyzeRequest`: the three checks' sums and their threats in order. */
  function Analyze(h: Headers): Analysis {
    var (s1, t1) := AgentFinding(h);
    var (s2, t2) := AttackFinding(h);
    var (s3, t3) := RefererFinding(h);
    var score := s1 + s2 + s3;
    Analysis(score, t1 + t2 + t3, Recommendations(score), score < 70)
  }

  /** The first of `pats` that `s` contains, found by a loop that stops at the first hit. */
  method FirstHit(s: string, pats: seq<string>) returns (r: Option<nat>)
    ensures r == FirstContained(s, pats)
  {
    var i := 0;
    while i < |pats|
      invariant 0 <= i <= |pats|
      invariant forall j :: 0 <= j < i ==> !Contains(s, pats[j])
    {
      if Contains(s, pats[i]) {
        FirstContainedAt(s, pats, i);
        return Some(i);
      }
      i := i + 1;
    }
    return None;
  }

  lemma FirstContainedAt(s: string, pats: seq<string>, i: nat)
    requires i < |pats| && Contains(s, pats[i])
    requires forall j :: 0 <= j < i ==> !Contains(s, pats[j])
    ensures FirstContained(s, pats) == Some(i)
  {
    assert FirstContained(s, pats).Some?;
  }

  /** The User-Agent part of `analyzeRequest`. */
  method CheckAgent(h: Headers) returns (riskScore: int, threats: seq<string>)
    ensures (riskScore, threats) == AgentFinding(h)
  {
    threats := [];
    riskScore := 0;
    if !Truthy(h.userAgent) {
      threats := threats + [MissingAgent];
      riskScore := riskScore + 20;
      assert threats == [MissingAgent];
    } else {
      var hit := FirstHit(ToLower(h.userAgent.value), SuspiciousAgents);
      if hit.Some? {
        threats := threats + ["Suspicious User-Agent pattern: " + SuspiciousAgents[hit.value]];
        riskScore := riskScore + 30;
        assert threats == ["Suspicious User-Agent pattern: " + SuspiciousAgents[hit.value]];
      }
    }
  }

  /** The header scan of `analyzeRequest`: the patterns in order, stopping at the first that matches. */
  method CheckAttacks(h: Headers) returns (riskScore: int, threats: seq<string>)
    ensures (riskScore, threats) == AttackFinding(h)
  {
    threats := [];
    riskScore := 0;
    var all := ToLower(AllHeaders(h));
    var k := 0;
    while k < |AttackPatterns|
      invariant 0 <= k <= |AttackPatterns|
      invariant forall j :: 0 <= j < k ==> !Matches(all, AttackPatterns[j])
      invariant riskScore == 0 && threats == []
    {
      if Matches(all, AttackPatterns[k]) {
        threats := threats + [Injection];
        riskScore := riskScore + 50;
        assert riskScore == 50 && threats == [Injection];
        return;
      }
      k := k + 1;
    }
  }

  method CheckReferer(h: Headers) returns (riskScore: int, threats: seq<string>)
    ensures (riskScore, threats) == RefererFinding(h)
  {
    threats := [];
    riskScore := 0;
    if Truthy(h.referer) {
      var hit := FirstHit(ToLower(h.referer.value), SuspiciousDomains);
      if hit.Some? {
        threats := threats + ["Suspicious referer domain: " + SuspiciousDomains[hit.value]];
        riskScore := riskScore + 40;
        assert threats == ["Suspicious referer domain: " + SuspiciousDomains[hit.value]];
      }
    }
  }

  /** `analyzeRequest`: the three checks add to one score and one list of threats. */
  method AnalyzeRequest(h: Headers) returns (a: Analysis)
    ensures a == Analyze(h)
  {
    var s1, t1 := CheckAgent(h);
    var s2, t2 := CheckAttacks(h);
    var s3, t3 := CheckReferer(h);
    var riskScore := s1 + s2 + s3;
    var threats := t1 + t2 + t3;
    var recommendations: seq<string> := [];
    if riskScore > 70 {
      recommendations := recommendations + BlockAdvice;
    } else if riskScore > 40 {
      recommendations := recommendations + MonitorAdvice;
    } else if riskScore > 20 {
      recommendations := recommendations + LogAdvice;
    }
    assert recommendations == Recommendations(riskScore);
    a := Analysis(riskScore, threats, recommendations, riskScore < 70);
  }

  /**
   * The score is a sum of at most one finding per check, so it is at most 120 with at most
   * three threats, one per non-zero part; the request is let through exactly below 70.
   */
  lemma ScoreShape(h: Headers)
    ensures var a := Analyze(h);
      && a.riskScore in {0, 20, 30, 50, 70, 80, 40, 60, 90, 100, 110, 120}
      && 0 <= a.riskScore <= 120
      && |a.threats| <= 3
      && (a.allowRequest <==> a.riskScore < 70)
      && (a.threats == [] <==> a.riskScore == 0)
  {
  }

  /** A missing or empty User-Agent alone is a threat worth 20, and no agent pattern is reported with it. */
  lemma MissingAgentCounts(h: Headers)
    requires !Truthy(h.userAgent)
    ensures Analyze(h).threats[0] == MissingAgent
    ensures forall t :: t in Analyze(h).threats ==> t == MissingAgent || t == Injection || StartsWith(t, "Suspicious referer domain: ")
  {
    var (s3, t3) := RefererFinding(h);
    forall t | t in t3
      ensures StartsWith(t, "Suspicious referer domain: ")
    {
      var k := FirstContained(ToLower(h.referer.value), SuspiciousDomains).value;
      assert t == "Suspicious referer domain: " + SuspiciousDomains[k];
    }
  }

  /**
   * A score of exactly 70 (a suspicious agent with a suspicious referer) is refused, yet
   * gets only the two monitoring recommendations.
   */
  lemma SeventyIsRefusedButOnlyMonitored(h: Headers)
    requires Analyze(h).riskScore == 70
    ensures !Analyze(h).allowRequest
    ensures Analyze(h).recommendations == MonitorAdvice
  {
  }

  const ContentSecurityPolicy := "default-src 'self'; script-src 'self' 'unsafe-inline'; style-src 'self' 'unsafe-inline'; img-src 'self' data: https:; font-src 'self' data:; connect-src 'self' wss: https:; frame-ancestors 'none';"
  const PermissionsPolicy := "camera=(), microphone=(), geolocation=(), payment=()"
  const HeaderNames := ["X-Content-Type-Options", "X-Frame-Options", "X-XSS-Protection", "Strict-Transport-Security",
                        "Referrer-Policy", "Content-Security-Policy", "Permissions-Policy"]
  const HeaderValues := ["nosniff", "DENY", "1; mode=block", "max-age=31536000; includeSubDomains",
                         "strict-origin-when-cross-origin", ContentSecurityPolicy, PermissionsPolicy]

  /** `getSecurityHeaders`: the same seven headers, name and value, on every call. */
  function SecurityHeaders(): (r: seq<(string, string)>)
    ensures |r| == 7
    ensures forall i :: 0 <= i < |r| ==> r[i] == (HeaderNames[i], HeaderValues[i])
  {
    seq(7, i requires 0 <= i < 7 => (HeaderNames[i], HeaderValues[i]))
  }

  /** No header name is repeated, so every one of the seven is sent. */
  lemma HeaderNamesDistinct()
    ensures forall i, j :: 0 <= i < j < |SecurityHeaders()| ==> SecurityHeaders()[i].0 != SecurityHeaders()[j].0
  {
  }
}

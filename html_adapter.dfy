/** The HTML page adapter: selector defaults, tag-name extraction, `parseHTML`, candidate mapping and `normalize`. */
module HtmlAdapter {
  import opened Wrappers
  import opened Text
  import opened JsValue
  import opened Markup
  import opened Retry
  import opened ScraperTypes

  const UserAgent := "Mozilla/5.0 (compatible; IdeaScraperBot/1.0)"

  /**
   * The four selectors `parseHTML` uses, after their defaults. The container selector enters a
   * template literal and so is converted to a string; the other three are kept as configured,
   * because `extractFirst` calls `selector.split`, which only a string has.
   */
  datatype Selectors = Selectors(container: string, title: Value, link: Value, summary: Value)

  /** `selectors.x || default` for each selector, where `selectors` is `config.selectors || {}`. */
  function ReadSelectors(config: Value): (s: Selectors)
    ensures !Truthy(Prop(config, "selectors")) ==> s == Selectors("article", Str("h2, h3"), Str("a"), Str("p"))
    ensures var sel := Prop(config, "selectors");
      s.container == if Truthy(sel) && Truthy(Prop(sel, "container")) then ToJsString(Prop(sel, "container")) else "article"
    ensures var sel := Prop(config, "selectors");
      s.title == if Truthy(sel) && Truthy(Prop(sel, "title")) then Prop(sel, "title") else Str("h2, h3")
    ensures var sel := Prop(config, "selectors");
      s.link == if Truthy(sel) && Truthy(Prop(sel, "link")) then Prop(sel, "link") else Str("a")
    ensures var sel := Prop(config, "selectors");
      s.summary == if Truthy(sel) && Truthy(Prop(sel, "summary")) then Prop(sel, "summary") else Str("p")
  {
    var sel := Or(Prop(config, "selectors"), Obj([]));
    Selectors(
      ToJsString(Or(Prop(sel, "container"), Str("article"))),
      Or(Prop(sel, "title"), Str("h2, h3")),
      Or(Prop(sel, "link"), Str("a")),
      Or(Prop(sel, "summary"), Str("p")))
  }

  /** Whether `selector.split` exists for the title, link and summary selectors. */
  predicate Splittable(sels: Selectors) {
    sels.title.Str? && sels.link.Str? && sels.summary.Str?
  }

  /** The TypeError `extractFirst` throws for a selector that is not a string. */
  const SplitNotAFunction := "selector.split is not a function"

  /** A character of the class `[.\[#\s]` that ends a selector's tag name. */
  predicate IsSelectorStop(c: char) { c == '.' || c == '[' || c == '#' || IsSpace(c) }

  /** `selector.split(/[.\[#\s]/)[0]`. */
  function TagName(selector: string): (t: string)
    ensures t <= selector
    ensures forall i :: 0 <= i < |t| ==> !IsSelectorStop(t[i])
    ensures |t| < |selector| ==> IsSelectorStop(selector[|t|])
  {
    if selector == [] || IsSelectorStop(selector[0]) then ""
    else [selector[0]] + TagName(selector[1..])
  }

  /** The default title selector `'h2, h3'` yields the tag name `h2,`. */
  lemma DefaultTitleTag()
    ensures TagName("h2, h3") == "h2,"
  {
    assert IsSelectorStop("h2, h3"[3]);
    assert TagName("h2, h3"[3..]) == "";
  }

  /**
   * `extractFirst(selector, extractHref)` inside one container body: the leftmost block of the
   * selector's tag gives its tag-stripped, trimmed body, or the `href` inside the whole block.
   */
  function ExtractFirst(containerHtml: string, selector: string, extractHref: bool): (r: Option<string>)
    ensures var m := FindFrom(containerHtml, TagPattern(TagName(selector), true, true), 0);
      (m.None? ==> r.None?) &&
      (m.Some? && !extractHref ==> r == Some(Trim(ReplaceTags(Inner(containerHtml, m.value), "")))) &&
      (m.Some? && extractHref ==> r == HrefFrom(containerHtml[m.value.start..m.value.end], 0))
  {
    var pat := TagPattern(TagName(selector), true, true);
    match FindFrom(containerHtml, pat, 0)
    case None => None
    case Some(m) =>
      if extractHref then HrefFrom(containerHtml[m.start..m.end], 0)
      else Some(Trim(ReplaceTags(Inner(containerHtml, m), "")))
  }

  /** A text that `extractFirst` yields has no surrounding whitespace and no tag left in it. */
  lemma ExtractFirstTrimmed(containerHtml: string, selector: string)
    requires ExtractFirst(containerHtml, selector, false).Some?
    ensures var t := ExtractFirst(containerHtml, selector, false).value;
      t == [] || (!IsSpace(t[0]) && !IsSpace(t[|t| - 1]))
    ensures TagFree(ExtractFirst(containerHtml, selector, false).value)
  {
    var m := FindFrom(containerHtml, TagPattern(TagName(selector), true, true), 0).value;
    ReplaceTagsLeavesNoTag(Inner(containerHtml, m), "");
    TrimKeepsTagFree(ReplaceTags(Inner(containerHtml, m), ""));
  }

  /** A link that `extractFirst` yields contains no quote. */
  lemma ExtractHrefHasNoQuote(containerHtml: string, selector: string)
    requires ExtractFirst(containerHtml, selector, true).Some?
    ensures var u := ExtractFirst(containerHtml, selector, true).value;
      forall i :: 0 <= i < |u| ==> !IsQuote(u[i])
  {
    var m := FindFrom(containerHtml, TagPattern(TagName(selector), true, true), 0).value;
    HrefHasNoQuote(containerHtml[m.start..m.end], 0);
  }

  function OptStr(o: Option<string>): (v: Value)
    ensures o.None? ==> v == Undefined
    ensures o.Some? ==> v == Str(o.value)
  {
    match o
    case None => Undefined
    case Some(s) => Str(s)
  }

  /** The item object `{title, url, summary}`, kept only when it has a title or a link. */
  function KeepItem(title: Value, url: Value, summary: Value): (r: Option<Value>)
    ensures r.Some? <==> (Truthy(title) || Truthy(url))
    ensures r.Some? ==> r.value.Obj? && Keys(r.value.fields) == ["title", "url", "summary"]
    ensures r.Some? ==> Prop(r.value, "title") == title && Prop(r.value, "url") == url && Prop(r.value, "summary") == summary
  {
    var fs := [Field("title", title), Field("url", url), Field("summary", summary)];
    LookupAt(fs, "url", 1);
    LookupAt(fs, "summary", 2);
    if Truthy(title) || Truthy(url) then Some(Obj(fs)) else None
  }

  /** The item of one container body; `None` also when a selector is not a string, where `Parsed` fails first. */
  function ContainerItem(sels: Selectors, containerHtml: string): Option<Value> {
    match (sels.title, sels.link, sels.summary)
    case (Str(title), Str(link), Str(summary)) =>
      KeepItem(
        OptStr(ExtractFirst(containerHtml, title, false)),
        OptStr(ExtractFirst(containerHtml, link, true)),
        OptStr(ExtractFirst(containerHtml, summary, false)))
    case _ => None
  }

  /** `new RegExp('<container[^>]*>([\s\S]*?)<\/container>', 'gi')`. */
  function ContainerPattern(sels: Selectors): TagPattern {
    TagPattern(sels.container, true, true)
  }

  /** The items of the containers, for selectors that are strings: one per container that has a title or a link, in document order. */
  function ItemsOf(html: string, sels: Selectors): seq<Value> {
    CollectFrom(html, ContainerPattern(sels), b => ContainerItem(sels, b), 0)
  }

  /**
   * The specification of `ParseHtml`: the first container's `extractFirst` throws when a selector is
   * not a string; otherwise the items of the containers.
   */
  function Parsed(html: string, sels: Selectors): (r: Result<seq<Value>>)
    ensures r.Err? <==> FindFrom(html, ContainerPattern(sels), 0).Some? && !Splittable(sels)
    ensures r.Err? ==> r.error == SplitNotAFunction
    ensures r.Ok? ==> r.value == ItemsOf(html, sels)
  {
    if FindFrom(html, ContainerPattern(sels), 0).Some? && !Splittable(sels) then Err(SplitNotAFunction)
    else Ok(ItemsOf(html, sels))
  }

  /** With a selector that is not a string nothing is extracted, so a page without containers still parses to no items. */
  lemma {:induction false} UnsplittableYieldsNothing(html: string, sels: Selectors, p: nat)
    requires !Splittable(sels)
    ensures CollectFrom(html, ContainerPattern(sels), b => ContainerItem(sels, b), p) == []
    decreases |html| - p
  {
    match FindFrom(html, ContainerPattern(sels), p)
    case None =>
    case Some(m) =>
      UnsplittableYieldsNothing(html, sels, m.end);
  }

  /** `parseHTML(html, selectors)`. */
  method ParseHtml(html: string, sels: Selectors) returns (r: Result<seq<Value>>)
    ensures r == Parsed(html, sels)
  {
    if !Splittable(sels) {
      var first := FindFrom(html, ContainerPattern(sels), 0);
      if first.Some? {
        return Err(SplitNotAFunction);
      }
      UnsplittableYieldsNothing(html, sels, 0);
      return Ok([]);
    }
    var items := Collect(html, ContainerPattern(sels), b => ContainerItem(sels, b));
    return Ok(items);
  }

  /** Every parsed item has a truthy title or url. */
  lemma ParsedItemsHaveTitleOrUrl(html: string, sels: Selectors, k: nat)
    requires k < |ItemsOf(html, sels)|
    ensures var item := ItemsOf(html, sels)[k];
      item.Obj? && (Truthy(Prop(item, "title")) || Truthy(Prop(item, "url")))
  {
    var f := b => ContainerItem(sels, b);
    CollectedFromSomeMatch(html, ContainerPattern(sels), f, 0, k);
    var m :| m in AllFrom(html, ContainerPattern(sels), 0) && f(Inner(html, m)) == Some(ItemsOf(html, sels)[k]);
    assert ContainerItem(sels, Inner(html, m)) == Some(ItemsOf(html, sels)[k]);
  }

  /**
   * Under the default selectors no title is ever found unless the page holds the literal
   * opening `<h2,`: the tag name taken from `'h2, h3'` is `h2,`.
   */
  lemma DefaultTitleNeedsLiteralTag(containerHtml: string)
    requires forall p :: !MatchesAt(containerHtml, p, "<h2,", true)
    ensures ExtractFirst(containerHtml, "h2, h3", false).None?
  {
    DefaultTitleTag();
    var pat := TagPattern("h2,", true, true);
    assert "<" + "h2," == "<h2,";
  }

  /** The headers of every request: the fixed User-Agent, and `If-None-Match` exactly when an etag is stored. */
  function PageHeaders(etag: Option<string>): (h: map<string, string>)
    ensures "User-Agent" in h && h["User-Agent"] == UserAgent
    ensures "If-None-Match" in h <==> IsSet(etag)
    ensures "If-None-Match" in h ==> h["If-None-Match"] == etag.value
    ensures "If-Modified-Since" !in h
    ensures h.Keys <= {"User-Agent", "If-None-Match"}
  {
    var h0 := map["User-Agent" := UserAgent];
    if IsSet(etag) then h0["If-None-Match" := etag.value] else h0
  }

  /** The candidates of the parsed items. */
  function Candidates(sha256: string -> string, pageUrl: Value, items: seq<Value>): (cs: seq<Candidate>)
    ensures |cs| == |items|
    ensures forall i :: 0 <= i < |items| ==> cs[i].raw == items[i]
    ensures forall i :: 0 <= i < |items| ==>
      cs[i].url == ToJsString(if Truthy(Prop(items[i], "url")) then Prop(items[i], "url") else pageUrl)
    ensures forall i :: 0 <= i < |items| ==>
      cs[i].extId == GenerateHash(sha256, cs[i].url,
        if Truthy(Prop(items[i], "title")) then ToJsString(Prop(items[i], "title")) else "item-" + NatToString(i))
  {
    seq(|items|, i requires 0 <= i < |items| =>
      var url := ToJsString(Or(Prop(items[i], "url"), pageUrl));
      Candidate(GenerateHash(sha256, url, ToJsString(Or(Prop(items[i], "title"), Str("item-" + NatToString(i))))), url, items[i]))
  }

  /** One attempt of the retried block; the status is not checked beyond 304, and a parse error is rethrown. */
  function Attempt(sha256: string -> string, pageUrl: Value, sels: Selectors, outcome: HttpOutcome): (r: Result<seq<Candidate>>)
    ensures outcome.NetworkError? ==> r == Err(outcome.message)
    ensures outcome.Response? && outcome.status == 304 ==> r == Ok([])
    ensures outcome.Response? && outcome.status != 304 && Parsed(outcome.body, sels).Err? ==>
      r == Err(SplitNotAFunction)
    ensures outcome.Response? && outcome.status != 304 && Parsed(outcome.body, sels).Ok? ==>
      r == Ok(Candidates(sha256, pageUrl, ItemsOf(outcome.body, sels)))
  {
    match outcome
    case NetworkError(e) => Err(e)
    case Response(status, body) =>
      if status == 304 then Ok([])
      else match Parsed(body, sels)
        case Err(e) => Err(e)
        case Ok(items) => Ok(Candidates(sha256, pageUrl, items))
  }

  /** With string selectors an attempt fails only on a network error. */
  lemma SplittableAttemptFailsOnlyOffline(sha256: string -> string, pageUrl: Value, sels: Selectors, outcome: HttpOutcome)
    requires Splittable(sels)
    ensures Attempt(sha256, pageUrl, sels, outcome).Ok? <==> outcome.Response?
  {
  }

  /**
   * A title, link or summary selector that is not a string fails every response that holds a
   * container, other than a 304; a page without containers still gives no items.
   */
  lemma UnsplittableSelectorFails(sha256: string -> string, pageUrl: Value, sels: Selectors, status: int, body: string)
    requires !Splittable(sels) && status != 304
    ensures FindFrom(body, ContainerPattern(sels), 0).Some? ==>
      Attempt(sha256, pageUrl, sels, Response(status, body)) == Err(SplitNotAFunction)
    ensures FindFrom(body, ContainerPattern(sels), 0).None? ==>
      Attempt(sha256, pageUrl, sels, Response(status, body)) == Ok([])
  {
    UnsplittableYieldsNothing(body, sels, 0);
  }

  /** The attempts of the retried block, one per issue of `req`. */
  function PageAttempts(sha256: string -> string, pageUrl: Value, sels: Selectors, req: Request, net: Network): (attempt: nat -> Result<seq<Candidate>>)
    ensures forall k :: attempt(k) == Attempt(sha256, pageUrl, sels, net(req, k))
  {
    (k: nat) => Attempt(sha256, pageUrl, sels, net(req, k))
  }

  /** The retried request for a configured page URL. */
  function FetchPage(pageUrl: Value, sels: Selectors, etag: Option<string>, net: Network, sha256: string -> string, jitter: nat -> real): (f: Fetched)
    ensures var req := Request(ToJsString(pageUrl), PageHeaders(etag));
      1 <= |f.requests| <= MaxRetries + 1 && (forall k :: 0 <= k < |f.requests| ==> f.requests[k] == req) &&
      f.result == Attempt(sha256, pageUrl, sels, net(req, |f.requests| - 1)) &&
      (forall k :: 0 <= k < |f.requests| - 1 ==> Attempt(sha256, pageUrl, sels, net(req, k)).Err?) &&
      (f.result.Ok? <==> exists k :: 0 <= k <= MaxRetries && Attempt(sha256, pageUrl, sels, net(req, k)).Ok?) &&
      (f.result.Ok? ==> exists k :: 0 <= k < |f.requests| && net(req, k).Response?) &&
      |f.delays| == |f.requests| - 1
    ensures forall k :: 0 <= k < |f.delays| ==> f.delays[k] == BackoffDelay(k, jitter(k))
  {
    var req := Request(ToJsString(pageUrl), PageHeaders(etag));
    Retried(req, PageAttempts(sha256, pageUrl, sels, req, net), net, jitter)
  }

  /** With string selectors every earlier issue met a network error, and the fetch succeeds iff one of the first four issues got a response. */
  lemma SplittablePageFailsOnlyOffline(pageUrl: Value, sels: Selectors, etag: Option<string>, net: Network, sha256: string -> string, jitter: nat -> real)
    requires Splittable(sels)
    ensures var f := FetchPage(pageUrl, sels, etag, net, sha256, jitter);
      var req := Request(ToJsString(pageUrl), PageHeaders(etag));
      (forall k :: 0 <= k < |f.requests| - 1 ==> net(req, k).NetworkError?) &&
      (f.result.Ok? <==> exists k :: 0 <= k <= MaxRetries && net(req, k).Response?)
  {
    var req := Request(ToJsString(pageUrl), PageHeaders(etag));
    var attempt := PageAttempts(sha256, pageUrl, sels, req, net);
    forall k: nat
      ensures attempt(k).Ok? <==> net(req, k).Response?
    {
      SplittableAttemptFailsOnlyOffline(sha256, pageUrl, sels, net(req, k));
    }
    RetriedOnResponse(req, attempt, net, jitter);
    assert FetchPage(pageUrl, sels, etag, net, sha256, jitter) == Retried(req, attempt, net, jitter);
  }

  /** `fetch()`. */
  function Fetch(source: Source, net: Network, sha256: string -> string, jitter: nat -> real): (f: Fetched)
    ensures source.config.Obj? && !Truthy(Prop(source.config, "url")) ==>
      f.result == Err("HTML page URL not configured") && f.requests == []
    ensures |f.requests| <= MaxRetries + 1
    ensures forall k :: 0 <= k < |f.requests| ==>
      f.requests[k] == Request(ToJsString(Prop(source.config, "url")), PageHeaders(source.etag))
    ensures f.result.Ok? ==> exists k :: 0 <= k < |f.requests| && net(f.requests[k], k).Response?
    ensures source.config == Null || source.config == Undefined ==> f.result.Err? && f.requests == []
    ensures !source.config.Null? && !source.config.Undefined? && Truthy(Prop(source.config, "url")) ==>
      f == FetchPage(Prop(source.config, "url"), ReadSelectors(source.config), source.etag, net, sha256, jitter)
  {
    match Member(source.config, "url")
    case Err(e) => Fetched(Err(e), [], [])
    case Ok(pageUrl) =>
      var sels := ReadSelectors(source.config);
      if !Truthy(pageUrl) then Fetched(Err("HTML page URL not configured"), [], [])
      else FetchPage(pageUrl, sels, source.etag, net, sha256, jitter)
  }

  /** `normalize(raw)`. */
  function Normalize(raw: Value): (n: NormalizedItem)
    ensures n.title == Or(Prop(raw, "title"), Str(""))
    ensures n.url == Or(Prop(raw, "url"), Str(""))
    ensures n.summary == Prop(raw, "summary") && n.author == Prop(raw, "author")
    ensures n.postedAt != Undefined <==> Truthy(Prop(raw, "postedAt"))
    ensures n.tags == Or(Prop(raw, "tags"), Arr([]))
  {
    var postedAt := Prop(raw, "postedAt");
    NormalizedItem(
      Or(Prop(raw, "title"), Str("")),
      Prop(raw, "summary"),
      Or(Prop(raw, "url"), Str("")),
      Prop(raw, "author"),
      if Truthy(postedAt) then postedAt else Undefined,
      Or(Prop(raw, "tags"), Arr([])))
  }
}

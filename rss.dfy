/** The RSS adapter: conditional request headers, `parseRSS`, candidate mapping and `normalize`. */
module RssAdapter {
  import opened Wrappers
  import opened Text
  import opened JsValue
  import opened Markup
  import opened Retry
  import opened ScraperTypes

  /** `/<item>([\s\S]*?)<\/item>/g`: a literal, case-sensitive `<item>` without attributes. */
  const ItemPattern := TagPattern("item", false, false)

  /** The keys `parseRSS` sets on every item, in order. */
  const ItemKeys: seq<string> := ["title", "link", "description", "guid", "pubDate", "author"]

  /** The headers of every feed request. */
  function FeedHeaders(source: Source): (h: map<string, string>)
    ensures "If-None-Match" in h <==> IsSet(source.etag)
    ensures "If-None-Match" in h ==> h["If-None-Match"] == source.etag.value
    ensures "If-Modified-Since" in h <==> IsSet(source.lastModified)
    ensures "If-Modified-Since" in h ==> h["If-Modified-Since"] == source.lastModified.value
    ensures h.Keys <= {"If-None-Match", "If-Modified-Since"}
  {
    var h0: map<string, string> := map[];
    var h1 := if IsSet(source.etag) then h0["If-None-Match" := source.etag.value] else h0;
    if IsSet(source.lastModified) then h1["If-Modified-Since" := source.lastModified.value] else h1
  }

  /** `extractTag(tag)`: the trimmed body of the first case-insensitive `<tag…>…</tag>` in the item. */
  function ExtractTag(itemXml: string, tag: string): Option<string> {
    match FindFrom(itemXml, TagPattern(tag, true, true), 0)
    case None => None
    case Some(m) => Some(Trim(Inner(itemXml, m)))
  }

  /** `extractTag` finds a tag exactly when some match exists, and then reads the leftmost one. */
  lemma ExtractTagIsLeftmost(itemXml: string, tag: string)
    ensures ExtractTag(itemXml, tag).None? <==> forall q :: MatchAt(itemXml, TagPattern(tag, true, true), q).None?
    ensures ExtractTag(itemXml, tag).Some? ==> exists p ::
      && MatchAt(itemXml, TagPattern(tag, true, true), p).Some?
      && (forall q :: q < p ==> MatchAt(itemXml, TagPattern(tag, true, true), q).None?)
      && ExtractTag(itemXml, tag).value == Trim(Inner(itemXml, MatchAt(itemXml, TagPattern(tag, true, true), p).value))
  {
    var pat := TagPattern(tag, true, true);
    match FindFrom(itemXml, pat, 0)
    case None =>
    case Some(m) =>
      assert MatchAt(itemXml, pat, m.start).Some?;
  }

  /** Every tag body `extractTag` returns is trimmed. */
  lemma ExtractTagTrimmed(itemXml: string, tag: string)
    requires ExtractTag(itemXml, tag).Some? && ExtractTag(itemXml, tag).value != ""
    ensures !IsSpace(ExtractTag(itemXml, tag).value[0])
    ensures !IsSpace(ExtractTag(itemXml, tag).value[|ExtractTag(itemXml, tag).value| - 1])
  {
  }

  function OptStr(o: Option<string>): (v: Value)
    ensures o.None? ==> v == Undefined
    ensures o.Some? ==> v == Str(o.value)
  {
    match o
    case None => Undefined
    case Some(s) => Str(s)
  }

  /** The item object built from one `<item>` body. */
  function ItemValue(itemXml: string): Value {
    ItemObject(
      OptStr(ExtractTag(itemXml, "title")),
      OptStr(ExtractTag(itemXml, "link")),
      OptStr(ExtractTag(itemXml, "description")),
      OptStr(ExtractTag(itemXml, "guid")),
      OptStr(ExtractTag(itemXml, "pubDate")),
      Or(OptStr(ExtractTag(itemXml, "author")), OptStr(ExtractTag(itemXml, "dc:creator"))))
  }

  /** The object literal `parseRSS` pushes for each item. */
  function ItemObject(title: Value, link: Value, description: Value, guid: Value, pubDate: Value, author: Value): (v: Value)
    ensures v.Obj? && Keys(v.fields) == ItemKeys
    ensures Prop(v, "title") == title && Prop(v, "link") == link && Prop(v, "description") == description
    ensures Prop(v, "guid") == guid && Prop(v, "pubDate") == pubDate && Prop(v, "author") == author
    ensures Prop(v, "category") == Undefined
  {
    var fs := [Field("title", title), Field("link", link), Field("description", description),
      Field("guid", guid), Field("pubDate", pubDate), Field("author", author)];
    ItemFields(fs);
    Obj(fs)
  }

  /** Six fields under the six item keys: each key reads its own field, and there is no "category". */
  lemma ItemFields(fs: seq<Field>)
    requires |fs| == 6 && fs[0].key == "title" && fs[1].key == "link" && fs[2].key == "description"
    requires fs[3].key == "guid" && fs[4].key == "pubDate" && fs[5].key == "author"
    ensures Keys(fs) == ItemKeys
    ensures Prop(Obj(fs), "title") == fs[0].val && Prop(Obj(fs), "link") == fs[1].val
    ensures Prop(Obj(fs), "description") == fs[2].val && Prop(Obj(fs), "guid") == fs[3].val
    ensures Prop(Obj(fs), "pubDate") == fs[4].val && Prop(Obj(fs), "author") == fs[5].val
    ensures Prop(Obj(fs), "category") == Undefined
  {
    assert Keys(fs) == ItemKeys by {
      forall i | 0 <= i < 6
        ensures Keys(fs)[i] == ItemKeys[i]
      {
      }
    }
    ItemKeysDistinct();
    assert DistinctKeys(fs) by {
      forall a, b | 0 <= a < b < |fs|
        ensures fs[a].key != fs[b].key
      {
        assert fs[a].key == ItemKeys[a] && fs[b].key == ItemKeys[b];
      }
    }
    LookupDistinct(fs, 1);
    LookupDistinct(fs, 2);
    LookupDistinct(fs, 3);
    LookupDistinct(fs, 4);
    LookupDistinct(fs, 5);
    NoCategory(fs);
  }

  lemma NoCategory(fs: seq<Field>)
    requires |fs| == 6 && fs[0].key == "title" && fs[1].key == "link" && fs[2].key == "description"
    requires fs[3].key == "guid" && fs[4].key == "pubDate" && fs[5].key == "author"
    ensures forall i :: 0 <= i < |fs| ==> |fs[i].key| != 8
  {
  }

  lemma ItemKeysDistinct()
    ensures forall i, j :: 0 <= i < j < |ItemKeys| ==> ItemKeys[i] != ItemKeys[j]
  {
    assert ItemKeys[1][0] != ItemKeys[3][0];
  }

  /** With distinct keys, a field's own key reads that field. */
  lemma LookupDistinct(fs: seq<Field>, i: nat)
    requires i < |fs|
    requires DistinctKeys(fs)
    ensures Lookup(fs, fs[i].key) == fs[i].val
  {
    LookupAt(fs, fs[i].key, i);
  }

  /** `parseRSS` keeps every block, whatever it holds, as an object with the six item keys. */
  function ItemOf(body: string): (r: Option<Value>)
    ensures r.Some?
    ensures r.value.Obj? && Keys(r.value.fields) == ItemKeys
  {
    Some(ItemValue(body))
  }

  /** The items of the `<item>` blocks from `pos` on: the specification of `ParseRss`. */
  function ItemsFrom(xml: string, pos: nat): seq<Value> {
    CollectFrom(xml, ItemPattern, ItemOf, pos)
  }

  /** One item per match of the global `<item>` search, in order, whatever the item holds. */
  lemma ItemsFromMatches(xml: string, pos: nat)
    ensures var ms := AllFrom(xml, ItemPattern, pos);
      |ItemsFrom(xml, pos)| == |ms|
      && forall k :: 0 <= k < |ms| ==> ItemsFrom(xml, pos)[k] == ItemValue(Inner(xml, ms[k]))
  {
    CollectEveryMatch(xml, ItemPattern, ItemOf, pos);
  }

  /** `parseRSS(xml)`. */
  method ParseRss(xml: string) returns (items: seq<Value>)
    ensures items == ItemsFrom(xml, 0)
  {
    items := Collect(xml, ItemPattern, ItemOf);
  }

  /** An `<item>` with attributes is not an item block. */
  lemma {:induction false} AttributedItemIgnored()
    ensures MatchAt("<item id=\"1\"></item>", ItemPattern, 0).None?
  {
    var s := "<item id=\"1\"></item>";
    assert s[5] == ' ';
  }

  /** The candidate list `fetch` returns for the parsed items. */
  function Candidates(source: Source, items: seq<Value>): (cs: seq<Candidate>)
    ensures |cs| == |items|
    ensures forall i :: 0 <= i < |items| ==> cs[i].raw == items[i]
    ensures forall i :: 0 <= i < |items| ==>
      cs[i].extId == if Truthy(Prop(items[i], "guid")) then ToJsString(Prop(items[i], "guid"))
      else if Truthy(Prop(items[i], "link")) then ToJsString(Prop(items[i], "link"))
      else IntToString(source.id) + "-" + NatToString(i)
    ensures forall i :: 0 <= i < |items| ==>
      cs[i].url == if Truthy(Prop(items[i], "link")) then ToJsString(Prop(items[i], "link")) else ""
  {
    seq(|items|, i requires 0 <= i < |items| => CandidateAt(source, items[i], i))
  }

  /** The candidate for the `i`-th item. */
  function CandidateAt(source: Source, item: Value, i: nat): (c: Candidate)
    ensures c.raw == item
    ensures c.extId == if Truthy(Prop(item, "guid")) then ToJsString(Prop(item, "guid"))
      else if Truthy(Prop(item, "link")) then ToJsString(Prop(item, "link"))
      else IntToString(source.id) + "-" + NatToString(i)
    ensures c.url == if Truthy(Prop(item, "link")) then ToJsString(Prop(item, "link")) else ""
  {
    Candidate(
      ToJsString(Or(Or(Prop(item, "guid"), Prop(item, "link")), Str(IntToString(source.id) + "-" + NatToString(i)))),
      ToJsString(Or(Prop(item, "link"), Str(""))),
      item)
  }

  /** One attempt of the retried block. */
  function Attempt(source: Source, outcome: HttpOutcome): (r: Result<seq<Candidate>>)
    ensures outcome.NetworkError? ==> r == Err(outcome.message)
    ensures outcome.Response? && outcome.status == 304 ==> r == Ok([])
    ensures outcome.Response? && outcome.status != 304 ==> r == Ok(Candidates(source, ItemsFrom(outcome.body, 0)))
  {
    match outcome
    case NetworkError(e) => Err(e)
    case Response(status, body) => if status == 304 then Ok([]) else Ok(Candidates(source, ItemsFrom(body, 0)))
  }

  /** The retried request for a configured feed URL; only a thrown network error makes an attempt fail. */
  function FetchFeed(source: Source, url: Value, net: Network, jitter: nat -> real): (f: Fetched)
    ensures var req := Request(ToJsString(url), FeedHeaders(source));
      1 <= |f.requests| <= MaxRetries + 1 && (forall k :: 0 <= k < |f.requests| ==> f.requests[k] == req) &&
      f.result == Attempt(source, net(req, |f.requests| - 1)) &&
      (forall k :: 0 <= k < |f.requests| - 1 ==> net(req, k).NetworkError?) &&
      (f.result.Ok? <==> exists k :: 0 <= k <= MaxRetries && net(req, k).Response?) &&
      |f.delays| == |f.requests| - 1
    ensures forall k :: 0 <= k < |f.delays| ==> f.delays[k] == BackoffDelay(k, jitter(k))
  {
    var req := Request(ToJsString(url), FeedHeaders(source));
    var attempt := (k: nat) => Attempt(source, net(req, k));
    assert forall k: nat :: attempt(k).Ok? <==> net(req, k).Response?;
    Retried(req, attempt, net, jitter)
  }

  /** `fetch()`. */
  function Fetch(source: Source, net: Network, jitter: nat -> real): (f: Fetched)
    ensures !source.config.Null? && !source.config.Undefined? && !Truthy(Prop(source.config, "url")) ==>
      f.result == Err("RSS feed URL not configured") && f.requests == []
    ensures f.result.Ok? ==> exists k :: 0 <= k < |f.requests| && net(f.requests[k], k).Response?
    ensures |f.requests| <= MaxRetries + 1
    ensures forall k :: 0 <= k < |f.requests| ==>
      f.requests[k] == Request(ToJsString(Prop(source.config, "url")), FeedHeaders(source))
    ensures source.config == Null || source.config == Undefined ==> f.result.Err? && f.requests == []
    ensures !source.config.Null? && !source.config.Undefined? && Truthy(Prop(source.config, "url")) ==>
      f == FetchFeed(source, Prop(source.config, "url"), net, jitter)
  {
    match Member(source.config, "url")
    case Err(e) => Fetched(Err(e), [], [])
    case Ok(url) =>
      if !Truthy(url) then Fetched(Err("RSS feed URL not configured"), [], [])
      else FetchFeed(source, url, net, jitter)
  }

  /** A 304 on the first request ends the fetch with no candidates and no retry. */
  lemma NotModifiedYieldsNothing(source: Source, net: Network, jitter: nat -> real)
    requires source.config.Obj? && Truthy(Prop(source.config, "url"))
    requires net(Request(ToJsString(Prop(source.config, "url")), FeedHeaders(source)), 0) == Response(304, "")
    ensures Fetch(source, net, jitter).result == Ok([])
    ensures |Fetch(source, net, jitter).requests| == 1
  {
  }

  /** `normalize(raw)`. */
  function Normalize(raw: Value): (n: NormalizedItem)
    ensures n.title == Or(Prop(raw, "title"), Str(""))
    ensures n.url == Or(Prop(raw, "link"), Str(""))
    ensures n.summary == Or(Prop(raw, "description"), Str(""))
    ensures n.author == Prop(raw, "author")
    ensures n.postedAt != Undefined <==> Truthy(Prop(raw, "pubDate"))
    ensures !Truthy(Prop(raw, "category")) ==> n.tags == Arr([])
    ensures Truthy(Prop(raw, "category")) && !Prop(raw, "category").Arr? ==> n.tags == Arr([Str(ToJsString(Prop(raw, "category")))])
    ensures Prop(raw, "category").Arr? ==> n.tags.Arr? && |n.tags.items| == |Prop(raw, "category").items|
    ensures Prop(raw, "category").Arr? ==>
      forall i :: 0 <= i < |n.tags.items| ==> n.tags.items[i] == Str(ToJsString(Prop(raw, "category").items[i]))
  {
    var category := Prop(raw, "category");
    var pubDate := Prop(raw, "pubDate");
    NormalizedItem(
      Or(Prop(raw, "title"), Str("")),
      Or(Prop(raw, "description"), Str("")),
      Or(Prop(raw, "link"), Str("")),
      Prop(raw, "author"),
      if Truthy(pubDate) then pubDate else Undefined,
      if !Truthy(category) then Arr([])
      else if category.Arr? then Arr(seq(|category.items|, i requires 0 <= i < |category.items| => Str(ToJsString(category.items[i]))))
      else Arr([Str(ToJsString(category))]))
  }

  /** Items that `parseRSS` produced never carry a category, so their normalised tags are always empty. */
  lemma {:induction false} ParsedItemsHaveNoTags(xml: string, k: nat)
    requires k < |ItemsFrom(xml, 0)|
    ensures Normalize(ItemsFrom(xml, 0)[k]).tags == Arr([])
  {
    ItemsFromMatches(xml, 0);
  }
}

/** The JSON API adapter: configured field names, request headers, item selection, candidate mapping and `normalize`. */
module ApiAdapter {
  import opened Wrappers
  import opened Text
  import opened JsValue
  import opened Retry
  import opened ScraperTypes

  /** `response.json()`; a body that is not JSON is an error. */
  type JsonParse = string -> Result<Value>

  /** `config[key] as string || fallback`, as the string it is used as (a property key or a URL). */
  function ConfigText(config: Value, key: string, fallback: string): (r: string)
    ensures Truthy(Prop(config, key)) ==> r == ToJsString(Prop(config, key))
    ensures !Truthy(Prop(config, key)) ==> r == fallback
  {
    ToJsString(Or(Prop(config, key), Str(fallback)))
  }

  /** The headers of every request. */
  function ApiHeaders(apiKey: Value, etag: Option<string>): (h: map<string, string>)
    ensures "Accept" in h && h["Accept"] == "application/json"
    ensures "Authorization" in h <==> Truthy(apiKey)
    ensures "Authorization" in h ==> h["Authorization"] == "Bearer " + ToJsString(apiKey)
    ensures "If-None-Match" in h <==> IsSet(etag)
    ensures "If-None-Match" in h ==> h["If-None-Match"] == etag.value
    ensures h.Keys <= {"Accept", "Authorization", "If-None-Match"}
  {
    var h0 := map["Accept" := "application/json"];
    var h1 := if Truthy(apiKey) then h0["Authorization" := "Bearer " + ToJsString(apiKey)] else h0;
    if IsSet(etag) then h1["If-None-Match" := etag.value] else h1
  }

  /** `Array.isArray(data) ? data : (data.items || data.data || [])`, then the `map` call on it. */
  function SelectItems(data: Value): (r: Result<seq<Value>>)
    ensures data.Arr? ==> r == Ok(data.items)
    ensures data == Null || data == Undefined ==> r.Err?
    ensures data.Obj? && Prop(data, "items").Arr? ==> r == Ok(Prop(data, "items").items)
    ensures data.Obj? && !Truthy(Prop(data, "items")) && Prop(data, "data").Arr? ==> r == Ok(Prop(data, "data").items)
    ensures data.Obj? && !Truthy(Prop(data, "items")) && !Truthy(Prop(data, "data")) ==> r == Ok([])
    ensures r.Ok? && !data.Arr? ==> Or(Or(Prop(data, "items"), Prop(data, "data")), Arr([])) == Arr(r.value)
  {
    if data.Arr? then Ok(data.items)
    else match Member(data, "items")
      case Err(e) => Err(e)
      case Ok(items) =>
        var chosen := Or(Or(items, Prop(data, "data")), Arr([]));
        if chosen.Arr? then Ok(chosen.items) else Err("items.map is not a function")
  }

  /** The candidate mapping; reading a field of a `null` or `undefined` item throws. */
  function MapItems(items: seq<Value>, idField: string, urlField: string): (r: Result<seq<Candidate>>)
    ensures r.Ok? <==> forall i :: 0 <= i < |items| ==> items[i] != Null && items[i] != Undefined
    ensures r.Ok? ==> |r.value| == |items|
    ensures r.Ok? ==> forall i :: 0 <= i < |items| ==> r.value[i] == Candidate(
      ToJsString(Or(Or(Prop(items[i], idField), Prop(items[i], "id")), Str(""))),
      ToJsString(Or(Or(Prop(items[i], urlField), Prop(items[i], "url")), Str(""))),
      items[i])
  {
    if items == [] then Ok([])
    else match Member(items[0], idField)
      case Err(e) => Err(e)
      case Ok(_) =>
        match MapItems(items[1..], idField, urlField)
        case Err(e) => Err(e)
        case Ok(rest) =>
          var c := Candidate(
            ToJsString(Or(Or(Prop(items[0], idField), Prop(items[0], "id")), Str(""))),
            ToJsString(Or(Or(Prop(items[0], urlField), Prop(items[0], "url")), Str(""))),
            items[0]);
          assert forall i :: 1 <= i < |items| ==> items[1..][i - 1] == items[i];
          Ok([c] + rest)
  }

  /** One attempt of the retried block. */
  function Attempt(outcome: HttpOutcome, parse: JsonParse, idField: string, urlField: string): (r: Result<seq<Candidate>>)
    ensures outcome.NetworkError? ==> r == Err(outcome.message)
    ensures outcome.Response? && outcome.status == 304 ==> r == Ok([])
    ensures outcome.Response? && outcome.status != 304 && !StatusOk(outcome.status) ==>
      r == Err("API error: " + IntToString(outcome.status))
    ensures r.Ok? && r.value != [] ==> outcome.Response? && StatusOk(outcome.status) && parse(outcome.body).Ok?
    ensures outcome.Response? && StatusOk(outcome.status) && parse(outcome.body).Err? ==>
      r == Err(parse(outcome.body).error)
    ensures outcome.Response? && StatusOk(outcome.status) && parse(outcome.body).Ok? ==>
      var items := SelectItems(parse(outcome.body).value);
      (items.Err? ==> r == Err(items.error)) &&
      (items.Ok? ==> r == MapItems(items.value, idField, urlField))
  {
    match outcome
    case NetworkError(e) => Err(e)
    case Response(status, body) =>
      if status == 304 then Ok([])
      else if !StatusOk(status) then Err("API error: " + IntToString(status))
      else match parse(body)
        case Err(e) => Err(e)
        case Ok(data) =>
          match SelectItems(data)
          case Err(e) => Err(e)
          case Ok(items) => MapItems(items, idField, urlField)
  }

  /** The retried request for a configured API URL with the configured id and url field names. */
  function FetchApi(apiUrl: Value, apiKey: Value, etag: Option<string>, net: Network, parse: JsonParse,
                    idField: string, urlField: string, jitter: nat -> real): (f: Fetched)
    ensures var req := Request(ToJsString(apiUrl), ApiHeaders(apiKey, etag));
      1 <= |f.requests| <= MaxRetries + 1 && (forall k :: 0 <= k < |f.requests| ==> f.requests[k] == req) &&
      f.result == Attempt(net(req, |f.requests| - 1), parse, idField, urlField) &&
      (forall k :: 0 <= k < |f.requests| - 1 ==> Attempt(net(req, k), parse, idField, urlField).Err?) &&
      (f.result.Ok? <==> exists k :: 0 <= k <= MaxRetries && Attempt(net(req, k), parse, idField, urlField).Ok?) &&
      (f.result.Ok? ==> exists k :: 0 <= k < |f.requests| && net(req, k).Response?) &&
      |f.delays| == |f.requests| - 1
    ensures forall k :: 0 <= k < |f.delays| ==> f.delays[k] == BackoffDelay(k, jitter(k))
  {
    var req := Request(ToJsString(apiUrl), ApiHeaders(apiKey, etag));
    Retried(req, (k: nat) => Attempt(net(req, k), parse, idField, urlField), net, jitter)
  }

  /** `fetch()`. */
  function Fetch(source: Source, net: Network, parse: JsonParse, jitter: nat -> real): (f: Fetched)
    ensures source.config.Obj? && !Truthy(Prop(source.config, "url")) ==>
      f.result == Err("API URL not configured") && f.requests == []
    ensures |f.requests| <= MaxRetries + 1
    ensures forall k :: 0 <= k < |f.requests| ==>
      f.requests[k] == Request(ToJsString(Prop(source.config, "url")), ApiHeaders(Prop(source.config, "apiKey"), source.etag))
    ensures f.result.Ok? ==> exists k :: 0 <= k < |f.requests| && net(f.requests[k], k).Response?
    ensures source.config == Null || source.config == Undefined ==> f.result.Err? && f.requests == []
    ensures !source.config.Null? && !source.config.Undefined? && Truthy(Prop(source.config, "url")) ==>
      f == FetchApi(Prop(source.config, "url"), Prop(source.config, "apiKey"), source.etag, net, parse,
        ConfigText(source.config, "idField", "id"), ConfigText(source.config, "urlField", "url"), jitter)
  {
    match Member(source.config, "url")
    case Err(e) => Fetched(Err(e), [], [])
    case Ok(apiUrl) =>
      var idField := ConfigText(source.config, "idField", "id");
      var urlField := ConfigText(source.config, "urlField", "url");
      if !Truthy(apiUrl) then Fetched(Err("API URL not configured"), [], [])
      else FetchApi(apiUrl, Prop(source.config, "apiKey"), source.etag, net, parse, idField, urlField, jitter)
  }

  /** A non-ok status is thrown inside the retried block, so four of them use every attempt and end in the last error. */
  lemma ServerErrorsAreRetried(source: Source, net: Network, parse: JsonParse, jitter: nat -> real, status: int)
    requires source.config.Obj? && Truthy(Prop(source.config, "url"))
    requires status != 304 && !StatusOk(status)
    requires forall r: Request, k: nat :: net(r, k) == Response(status, "")
    ensures |Fetch(source, net, parse, jitter).requests| == MaxRetries + 1
    ensures Fetch(source, net, parse, jitter).result == Err("API error: " + IntToString(status))
  {
  }

  /** `normalize(raw)` with the configured field names. */
  function Normalize(config: Value, raw: Value): (n: NormalizedItem)
    ensures n.title == Or(Prop(raw, ConfigText(config, "titleField", "title")), Str(""))
    ensures n.url == Or(Prop(raw, ConfigText(config, "urlField", "url")), Str(""))
    ensures n.summary == Prop(raw, ConfigText(config, "summaryField", "summary"))
    ensures n.author == Prop(raw, ConfigText(config, "authorField", "author"))
    ensures n.postedAt != Undefined <==> Truthy(Prop(raw, ConfigText(config, "dateField", "createdAt")))
    ensures var t := Prop(raw, ConfigText(config, "tagsField", "tags"));
      n.tags == if !Truthy(t) then Arr([]) else if t.Arr? then t else Arr([Str(ToJsString(t))])
  {
    var date := Prop(raw, ConfigText(config, "dateField", "createdAt"));
    var t := Prop(raw, ConfigText(config, "tagsField", "tags"));
    NormalizedItem(
      Or(Prop(raw, ConfigText(config, "titleField", "title")), Str("")),
      Prop(raw, ConfigText(config, "summaryField", "summary")),
      Or(Prop(raw, ConfigText(config, "urlField", "url")), Str("")),
      Prop(raw, ConfigText(config, "authorField", "author")),
      if Truthy(date) then date else Undefined,
      if !Truthy(t) then Arr([]) else if t.Arr? then t else Arr([Str(ToJsString(t))]))
  }
}

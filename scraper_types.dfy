/** The scraper's records: sources, fetched candidates, normalised items, and the HTTP exchange an adapter performs. */
module ScraperTypes {
  import opened Wrappers
  import opened JsValue
  import opened Retry

  /** A row of `sources`; `config` is the source's JSON configuration. */
  datatype Source = Source(
    id: int, name: string, kind: string, config: Value, enabled: bool,
    lastFetchAt: Option<int>, etag: Option<string>, lastModified: Option<string>)

  /** One entry returned by an adapter's `fetch`. */
  datatype Candidate = Candidate(extId: string, url: string, raw: Value)

  /**
   * What `normalize` returns. The fields hold the values the source passes through
   * (its `as string` casts do not convert); `postedAt` holds the value a `Date` is built from.
   */
  datatype NormalizedItem = NormalizedItem(
    title: Value, summary: Value, url: Value, author: Value, postedAt: Value, tags: Value)

  datatype Request = Request(url: string, headers: map<string, string>)

  /** What the network yields for one request: a response, or a thrown error. */
  datatype HttpOutcome = Response(status: int, body: string) | NetworkError(message: string)

  /** The server's answer to the `k`-th issue of a request. */
  type Network = (Request, nat) -> HttpOutcome

  /** `response.ok`. */
  predicate StatusOk(status: int) { 200 <= status <= 299 }

  /** A set (truthy) optional string column such as `etag`. */
  predicate IsSet(o: Option<string>) { o.Some? && o.value != "" }

  /** The outcome of an adapter's `fetch`: its result, the requests it issued, and the backoff waits. */
  datatype Fetched = Fetched(result: Result<seq<Candidate>>, requests: seq<Request>, delays: seq<real>)

  /**
   * `retryWithBackoff` around one request: every attempt reissues `req`; the result is that of the
   * last attempt, every earlier attempt failed, and the waits are the backoff delays in order.
   */
  function Retried(req: Request, attempt: nat -> Result<seq<Candidate>>, net: Network, jitter: nat -> real): (f: Fetched)
    requires forall k :: attempt(k).Ok? ==> net(req, k).Response?
    ensures 1 <= |f.requests| <= MaxRetries + 1
    ensures forall k :: 0 <= k < |f.requests| ==> f.requests[k] == req
    ensures f.result == attempt(|f.requests| - 1)
    ensures forall k :: 0 <= k < |f.requests| - 1 ==> attempt(k).Err?
    ensures f.result.Ok? <==> exists k :: 0 <= k <= MaxRetries && attempt(k).Ok?
    ensures f.result.Err? ==> |f.requests| == MaxRetries + 1
    ensures f.result.Ok? ==> exists k :: 0 <= k < |f.requests| && net(f.requests[k], k).Response?
    ensures |f.delays| == |f.requests| - 1
    ensures forall k :: 0 <= k < |f.delays| ==> f.delays[k] == BackoffDelay(k, jitter(k))
  {
    var t := RetryWithBackoff(attempt, jitter);
    var f := Fetched(t.result, seq(t.calls, _ => req), t.delays);
    assert f.result.Ok? ==> f.requests[t.calls - 1] == req && net(req, t.calls - 1).Response?;
    f
  }

  /**
   * When exactly the responses make attempts succeed, every earlier issue met a network error and
   * the fetch succeeds iff one of the first four issues got a response.
   */
  lemma RetriedOnResponse(req: Request, attempt: nat -> Result<seq<Candidate>>, net: Network, jitter: nat -> real)
    requires forall k :: attempt(k).Ok? <==> net(req, k).Response?
    ensures var f := Retried(req, attempt, net, jitter);
      (forall k :: 0 <= k < |f.requests| - 1 ==> net(req, k).NetworkError?) &&
      (f.result.Ok? <==> exists k :: 0 <= k <= MaxRetries && net(req, k).Response?)
  {
  }
}

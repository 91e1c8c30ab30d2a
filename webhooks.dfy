/**
 * Outbound and inbound webhooks: `processWebhook` logs an inbound call, `triggerWebhooks`
 * queues one delivery row per subscribed webhook, and `deliverPendingWebhooks` posts the
 * eligible rows and records the outcome. The `integration_webhooks` table is the `hooks`
 * sequence; `webhook_deliveries` is a sequence whose row at index `j` has id `j + 1`.
 * `NOW()`, `Date.now()`, the HTTP outcome of each POST, `JSON.stringify` and HMAC-SHA256 are
 * parameters.
 */
module Webhooks {
  import opened Wrappers
  import Retry

  /** A row of `integration_webhooks`. */
  datatype Hook = Hook(id: nat, url: string, secret: string, events: seq<string>, enabled: bool)

  datatype Status = Pending | Success | Failed

  /** A row of `webhook_deliveries`; `None` is SQL `NULL`. */
  datatype Delivery = Delivery(
    id: nat,
    webhookId: Option<nat>,
    eventType: string,
    payload: string,
    status: Status,
    attempts: nat,
    nextRetry: Option<int>,
    responseCode: Option<int>,
    responseBody: Option<string>)

  /** What one POST did: an ok status, another status, or a thrown error with its message. */
  datatype Outcome = Ok(code: int) | NotOk(code: int) | Threw(message: string)

  /** The POST sent for a delivery: its URL, its `X-Webhook-Signature` header and its body. */
  datatype Request = Request(url: string, signature: string, body: string)

  const MaxAttempts := 5
  const BatchSize := 100
  const RetryBase := 60000

  /** Row ids are their positions plus one, as a serial column hands them out. */
  predicate Numbered(ds: seq<Delivery>) {
    forall j :: 0 <= j < |ds| ==> ds[j].id == j + 1
  }

  /** `$1 = ANY(events) AND enabled = true`. */
  predicate Subscribed(h: Hook, eventType: string) {
    eventType in h.events && h.enabled
  }

  /** The webhooks the trigger query returns, in table order. */
  function Subscribers(hooks: seq<Hook>, eventType: string): (r: seq<Hook>)
    ensures forall h :: h in r <==> h in hooks && Subscribed(h, eventType)
  {
    if hooks == [] then []
    else
      var last := hooks[|hooks| - 1];
      assert hooks == hooks[..|hooks| - 1] + [last];
      Subscribers(hooks[..|hooks| - 1], eventType) + (if Subscribed(last, eventType) then [last] else [])
  }

  /** The rows `triggerWebhooks` inserts, numbered from `firstId`. */
  function Queued(hooks: seq<Hook>, firstId: nat, eventType: string, payload: string, now: int): (r: seq<Delivery>)
    ensures |r| == |hooks|
    ensures forall k :: 0 <= k < |r| ==>
      r[k] == Delivery(firstId + k, Some(hooks[k].id), eventType, payload, Pending, 0, Some(now), None, None)
  {
    seq(|hooks|, k requires 0 <= k < |hooks| =>
      Delivery(firstId + k, Some(hooks[k].id), eventType, payload, Pending, 0, Some(now), None, None))
  }

  /** The first webhook with this id: the join `wd.webhook_id = iw.id`. */
  function HookOf(hooks: seq<Hook>, id: nat): (r: Option<Hook>)
    ensures r.Some? ==> r.value in hooks && r.value.id == id
    ensures r.None? <==> forall h :: h in hooks ==> h.id != id
  {
    if hooks == [] then None
    else if hooks[0].id == id then Some(hooks[0])
    else HookOf(hooks[1..], id)
  }

  /** The `WHERE` clause of the delivery query, the join included. */
  predicate Eligible(d: Delivery, hooks: seq<Hook>, now: int) {
    && d.status == Pending
    && d.nextRetry.Some? && d.nextRetry.value <= now
    && d.attempts < MaxAttempts
    && d.webhookId.Some? && HookOf(hooks, d.webhookId.value).Some?
  }

  predicate Increasing(s: seq<nat>) {
    forall a, b :: 0 <= a < b < |s| ==> s[a] < s[b]
  }

  /** The positions of every eligible row, in table order. */
  function EligibleRows(ds: seq<Delivery>, hooks: seq<Hook>, now: int): (r: seq<nat>)
    ensures Increasing(r)
    ensures forall k :: 0 <= k < |r| ==> r[k] < |ds| && Eligible(ds[r[k]], hooks, now)
    ensures forall j :: 0 <= j < |ds| && Eligible(ds[j], hooks, now) ==> j in r
  {
    if ds == [] then []
    else
      var n := |ds| - 1;
      var init := EligibleRows(ds[..n], hooks, now);
      assert forall k :: 0 <= k < |init| ==> ds[init[k]] == ds[..n][init[k]];
      init + (if Eligible(ds[n], hooks, now) then [n] else [])
  }

  /** `LIMIT 100`: the query's rows, taken in table order. */
  function Selected(ds: seq<Delivery>, hooks: seq<Hook>, now: int): (r: seq<nat>)
    ensures |r| <= BatchSize
    ensures Increasing(r)
    ensures forall k :: 0 <= k < |r| ==> r[k] < |ds| && Eligible(ds[r[k]], hooks, now)
    ensures |r| < BatchSize ==> forall j :: 0 <= j < |ds| && Eligible(ds[j], hooks, now) ==> j in r
  {
    var all := EligibleRows(ds, hooks, now);
    if |all| <= BatchSize then all else all[..BatchSize]
  }

  /** `secret || 'default-secret'`. */
  function SigningKey(secret: string): (r: string)
    ensures secret != "" ==> r == secret
    ensures secret == "" ==> r == "default-secret"
  {
    if secret == "" then "default-secret" else secret
  }

  /** The wait before the next try: `2^attempts` minutes. */
  function Backoff(attempts: nat): (r: nat)
    ensures r >= RetryBase
  {
    Retry.Pow2(attempts) * RetryBase
  }

  /** The row after its POST: success, or failure with one more attempt and a later retry time. */
  function Settled(d: Delivery, o: Outcome, t: int): (r: Delivery)
    ensures r.id == d.id && r.webhookId == d.webhookId && r.payload == d.payload
    ensures o.Ok? ==> r.status == Success && r.attempts == d.attempts && r.nextRetry == d.nextRetry
    ensures !o.Ok? ==> r.status == Failed && r.attempts == d.attempts + 1 && r.nextRetry == Some(t + Retry.Pow2(d.attempts) * 60000)
  {
    match o
    case Ok(code) => d.(status := Success, responseCode := Some(code))
    case NotOk(code) =>
      d.(status := Failed, attempts := d.attempts + 1, responseCode := Some(code), nextRetry := Some(t + Backoff(d.attempts)))
    case Threw(message) =>
      d.(status := Failed, attempts := d.attempts + 1, responseBody := Some(message), nextRetry := Some(t + Backoff(d.attempts)))
  }

  /**
   * The table after the rows `picks` have been posted, one after another: the k-th of them
   * settled from its selected state by `outcomes(k)` at clock reading `clock(k)`.
   */
  function AfterPass(ds: seq<Delivery>, picks: seq<nat>, clock: nat -> int, outcomes: nat -> Outcome): (r: seq<Delivery>)
    ensures |r| == |ds|
    ensures forall j :: 0 <= j < |ds| ==> r[j].id == ds[j].id
  {
    if picks == [] then ds
    else
      var n := |picks| - 1;
      var a := AfterPass(ds, picks[..n], clock, outcomes);
      if picks[n] < |ds| then a[picks[n] := Settled(ds[picks[n]], outcomes(n), clock(n))] else a
  }

  /**
   * The POST for a selected row: signed with the webhook's secret over the row's payload.
   * `d.payload` stands for `JSON.stringify(delivery.payload)`, which the body and the signature
   * both use; this assumes the payload column gives back the object it stored, as a JSON column
   * does. A text column would give back the string, and the source would encode it twice.
   */
  function RequestFor(d: Delivery, hooks: seq<Hook>, hmac: (string, string) -> string): Request {
    var h := if d.webhookId.Some? then HookOf(hooks, d.webhookId.value) else None;
    match h
    case Some(w) => Request(w.url, hmac(SigningKey(w.secret), d.payload), d.payload)
    case None => Request("", hmac(SigningKey(""), d.payload), d.payload)
  }

  class WebhookStore {
    var hooks: seq<Hook>
    var deliveries: seq<Delivery>

    ghost predicate Valid()
      reads this
    {
      Numbered(deliveries)
    }

    constructor (hooks: seq<Hook>)
      ensures this.hooks == hooks && deliveries == []
      ensures Valid()
    {
      this.hooks := hooks;
      deliveries := [];
    }

    /** `processWebhook`: an inbound call is logged as already delivered. `data` is `JSON.stringify(payload.data)`. */
    method ProcessWebhook(provider: string, event: string, data: string)
      requires Valid()
      modifies this
      ensures Valid()
      ensures hooks == old(hooks)
      ensures deliveries == old(deliveries) + [Delivery(|old(deliveries)| + 1, None, event, data, Success, 1, None, None, None)]
    {
      deliveries := deliveries + [Delivery(|deliveries| + 1, None, event, data, Success, 1, None, None, None)];
    }

    /** `triggerWebhooks`: `payload` is `JSON.stringify({ event, data })`, `now` is `NOW()`. */
    method TriggerWebhooks(eventType: string, payload: string, now: int)
      requires Valid()
      modifies this
      ensures Valid()
      ensures hooks == old(hooks)
      ensures deliveries == old(deliveries) + Queued(Subscribers(hooks, eventType), |old(deliveries)| + 1, eventType, payload, now)
    {
      var targets := Subscribers(hooks, eventType);
      ghost var before := deliveries;
      for k := 0 to |targets|
        invariant hooks == old(hooks) && Numbered(deliveries)
        invariant deliveries == before + Queued(targets[..k], |before| + 1, eventType, payload, now)
      {
        deliveries := deliveries + [Delivery(|deliveries| + 1, Some(targets[k].id), eventType, payload, Pending, 0, Some(now), None, None)];
        assert Queued(targets[..k + 1], |before| + 1, eventType, payload, now)
          == Queued(targets[..k], |before| + 1, eventType, payload, now) + [deliveries[|deliveries| - 1]];
      }
      assert targets[..|targets|] == targets;
    }

    /**
     * `deliverPendingWebhooks`: `now` is the query's `NOW()`; the k-th row of the pass sees
     * `clock(k)` from `Date.now()` and `outcomes(k)` from its POST.
     */
    method DeliverPendingWebhooks(now: int, clock: nat -> int, outcomes: nat -> Outcome, hmac: (string, string) -> string)
      returns (requests: seq<Request>)
      requires Valid()
      modifies this
      ensures Valid()
      ensures hooks == old(hooks)
      ensures var picks := Selected(old(deliveries), hooks, now);
        && deliveries == AfterPass(old(deliveries), picks, clock, outcomes)
        && |requests| == |picks|
        && forall k :: 0 <= k < |picks| ==> requests[k] == RequestFor(old(deliveries)[picks[k]], hooks, hmac)
    {
      var rows := deliveries;
      var picks := Selected(rows, hooks, now);
      requests := [];
      for k := 0 to |picks|
        invariant hooks == old(hooks)
        invariant deliveries == AfterPass(rows, picks[..k], clock, outcomes)
        invariant |requests| == k
        invariant forall i :: 0 <= i < k ==> requests[i] == RequestFor(rows[picks[i]], hooks, hmac)
      {
        var request := PostRow(rows, picks, k, clock, outcomes, hmac);
        SentInOrder(requests, request, rows, picks, k, hooks, hmac);
        requests := requests + [request];
      }
      assert picks[..|picks|] == picks;
    }

    /** One iteration of the pass: the POST for the `k`-th selected row, and that row settled. */
    method PostRow(rows: seq<Delivery>, picks: seq<nat>, k: nat, clock: nat -> int, outcomes: nat -> Outcome, hmac: (string, string) -> string)
      returns (request: Request)
      requires k < |picks| && picks[k] < |rows|
      requires deliveries == AfterPass(rows, picks[..k], clock, outcomes)
      modifies this
      ensures hooks == old(hooks)
      ensures deliveries == AfterPass(rows, picks[..k + 1], clock, outcomes)
      ensures request == RequestFor(rows[picks[k]], hooks, hmac)
    {
      var j := picks[k];
      PassPrefix(picks, k);
      request := RequestFor(rows[j], hooks, hmac);
      deliveries := deliveries[j := Settled(rows[j], outcomes(k), clock(k))];
    }
  }

  /** The requests of the first `k` rows, then the `k + 1`-th. */
  lemma SentInOrder(sent: seq<Request>, request: Request, rows: seq<Delivery>, picks: seq<nat>, k: nat, hooks: seq<Hook>, hmac: (string, string) -> string)
    requires |sent| == k < |picks| && forall i :: 0 <= i <= k ==> picks[i] < |rows|
    requires forall i :: 0 <= i < k ==> sent[i] == RequestFor(rows[picks[i]], hooks, hmac)
    requires request == RequestFor(rows[picks[k]], hooks, hmac)
    ensures forall i :: 0 <= i < k + 1 ==> (sent + [request])[i] == RequestFor(rows[picks[i]], hooks, hmac)
  {
  }

  /** The pass cut after its `k + 1`-th row ends with that row. */
  lemma PassPrefix(picks: seq<nat>, k: nat)
    requires k < |picks|
    ensures picks[..k + 1][..k] == picks[..k] && picks[..k + 1][k] == picks[k] && |picks[..k + 1]| == k + 1
  {
  }

  /**
   * With the rows of an increasing pass, a row outside the pass is unchanged and the k-th
   * row of the pass is settled by the k-th outcome at the k-th clock reading.
   */
  lemma {:induction false} AfterPassRows(ds: seq<Delivery>, picks: seq<nat>, clock: nat -> int, outcomes: nat -> Outcome)
    requires Increasing(picks)
    ensures var r := AfterPass(ds, picks, clock, outcomes);
      && (forall j :: 0 <= j < |ds| && j !in picks ==> r[j] == ds[j])
      && (forall k :: 0 <= k < |picks| && picks[k] < |ds| ==> r[picks[k]] == Settled(ds[picks[k]], outcomes(k), clock(k)))
  {
    if picks != [] {
      var n := |picks| - 1;
      var init := picks[..n];
      var p := picks[n];
      assert forall k :: 0 <= k < n ==> init[k] == picks[k];
      AfterPassRows(ds, init, clock, outcomes);
      var a := AfterPass(ds, init, clock, outcomes);
      var r := AfterPass(ds, picks, clock, outcomes);
      assert picks == init + [p];
      forall j | 0 <= j < |ds| && j !in picks
        ensures r[j] == ds[j]
      {
        assert j !in init;
      }
      forall k | 0 <= k < |picks| && picks[k] < |ds|
        ensures r[picks[k]] == Settled(ds[picks[k]], outcomes(k), clock(k))
      {
        if k < n {
          assert picks[k] < p;
        }
      }
    }
  }

  /** One queued row per subscribed webhook, in table order, each pending with no attempts and due now. */
  lemma TriggerQueuesSubscribers(hooks: seq<Hook>, firstId: nat, eventType: string, payload: string, now: int, h: Hook)
    ensures var q := Queued(Subscribers(hooks, eventType), firstId, eventType, payload, now);
      && |q| == |Subscribers(hooks, eventType)|
      && (h in hooks && h.enabled && eventType in h.events <==> exists k :: 0 <= k < |q| && q[k].webhookId == Some(h.id) && Subscribers(hooks, eventType)[k] == h)
      && forall k :: 0 <= k < |q| ==> q[k].status == Pending && q[k].attempts == 0 && q[k].nextRetry == Some(now)
  {
    var s := Subscribers(hooks, eventType);
    if h in s {
      var k :| 0 <= k < |s| && s[k] == h;
      assert Queued(s, firstId, eventType, payload, now)[k].webhookId == Some(h.id);
    }
  }

  /** A disabled webhook, or one not subscribed to the event, gets no row. */
  lemma UnsubscribedGetsNothing(hooks: seq<Hook>, firstId: nat, eventType: string, payload: string, now: int, h: Hook)
    requires forall g :: g in hooks && g.id == h.id ==> !g.enabled || eventType !in g.events
    ensures forall d :: d in Queued(Subscribers(hooks, eventType), firstId, eventType, payload, now) ==> d.webhookId != Some(h.id)
  {
    var s := Subscribers(hooks, eventType);
    var q := Queued(s, firstId, eventType, payload, now);
    forall d | d in q
      ensures d.webhookId != Some(h.id)
    {
      var k :| 0 <= k < |q| && q[k] == d;
      assert s[k] in s;
    }
  }

  /**
   * A pass posts only eligible rows, at most 100 of them, and every eligible row when fewer
   * than 100 are; the k-th row of the pass is settled by the k-th outcome at the k-th clock
   * reading, and rows outside the pass are unchanged.
   */
  lemma PassOutcome(ds: seq<Delivery>, hooks: seq<Hook>, now: int, clock: nat -> int, outcomes: nat -> Outcome)
    ensures var picks := Selected(ds, hooks, now);
      var r := AfterPass(ds, picks, clock, outcomes);
      && |picks| <= BatchSize
      && (forall j :: 0 <= j < |ds| && j !in picks ==> r[j] == ds[j])
      && (|picks| < BatchSize ==> forall j :: 0 <= j < |ds| && j !in picks ==> !Eligible(ds[j], hooks, now))
      && forall k :: 0 <= k < |picks| ==>
        && picks[k] < |ds| && Eligible(ds[picks[k]], hooks, now)
        && r[picks[k]] == Settled(ds[picks[k]], outcomes(k), clock(k))
  {
    AfterPassRows(ds, Selected(ds, hooks, now), clock, outcomes);
  }

  /**
   * Once posted, a row is never selected again, whatever the time: a failed row has left
   * `pending`, so the retry time it was given is never used.
   */
  lemma SettledNeverReselected(d: Delivery, o: Outcome, t: int, hooks: seq<Hook>, later: int)
    ensures !Eligible(Settled(d, o, t), hooks, later)
  {
  }

  /** Every row of a pass is out of every later pass. */
  lemma {:induction false} PassedRowsStayDone(ds: seq<Delivery>, hooks: seq<Hook>, now: int, clock: nat -> int, outcomes: nat -> Outcome, later: int)
    ensures var picks := Selected(ds, hooks, now);
      var r := AfterPass(ds, picks, clock, outcomes);
      forall k :: 0 <= k < |picks| ==> picks[k] !in Selected(r, hooks, later)
  {
    var picks := Selected(ds, hooks, now);
    var r := AfterPass(ds, picks, clock, outcomes);
    AfterPassRows(ds, picks, clock, outcomes);
    forall k | 0 <= k < |picks|
      ensures picks[k] !in Selected(r, hooks, later)
    {
      var j := picks[k];
      SettledNeverReselected(ds[j], outcomes(k), clock(k), hooks, later);
    }
  }

  /** The wait doubles with each attempt, starting from one minute. */
  lemma BackoffDoubles(attempts: nat)
    ensures Backoff(0) == 60000
    ensures Backoff(attempts + 1) == 2 * Backoff(attempts)
  {
  }

  /** An inbound call's row has no webhook and no retry time, so no pass ever posts it. */
  lemma InboundNeverPosted(event: string, data: string, id: nat, hooks: seq<Hook>, now: int)
    ensures !Eligible(Delivery(id, None, event, data, Success, 1, None, None, None), hooks, now)
  {
  }

  /** Queued rows are due at once when their webhook still exists and the pass runs no earlier. */
  lemma QueuedAreDue(h: Hook, hooks: seq<Hook>, id: nat, eventType: string, payload: string, now: int, passAt: int)
    requires h in hooks && now <= passAt
    ensures Eligible(Delivery(id, Some(h.id), eventType, payload, Pending, 0, Some(now), None, None), hooks, passAt)
  {
  }
}

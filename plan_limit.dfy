/**
 * `checkRateLimit`: a fixed-window limit per user and route whose size depends on the
 * user's plan, kept in a module-level store. `Date.now()` is the parameter `now`; the
 * `setTimeout` that deletes a key after its window is not modelled (an expired entry is
 * replaced on the next call either way).
 */
module PlanLimit {
  import opened Wrappers
  import JsValue

  /** `RateLimitConfig`: the window in seconds and the calls allowed in it. */
  datatype Limits = Limits(window: int, max: int)

  datatype StoreEntry = StoreEntry(count: int, resetAt: int)

  /** `{ allowed, retryAfter? }`. */
  datatype Decision = Decision(allowed: bool, retryAfter: Option<int>)

  const FreeLimits := Limits(60, 10)

  /** `PLAN_LIMITS[plan] || PLAN_LIMITS.free`. */
  function PlanLimits(plan: string): (r: Limits)
    ensures plan != "pro" && plan != "enterprise" ==> r == FreeLimits
    ensures r.window == 60 && r.max >= 10
  {
    if plan == "free" then FreeLimits
    else if plan == "pro" then Limits(60, 100)
    else if plan == "enterprise" then Limits(60, 1000)
    else FreeLimits
  }

  function StoreKey(userId: string, route: string): string {
    userId + ":" + route
  }

  /**
   * The specification of `CheckRateLimit`. `fails` stands for an exception inside the `try`,
   * which is caught and lets the call through without touching the store.
   */
  function Decide(store: map<string, StoreEntry>, userId: string, route: string, plan: string, now: int, fails: bool): (Decision, map<string, StoreEntry>) {
    var config := PlanLimits(plan);
    var key := StoreKey(userId, route);
    if fails then (Decision(true, None), store)
    else if key in store && store[key].resetAt > now then
      if store[key].count >= config.max then
        (Decision(false, Some(JsValue.CeilDiv(store[key].resetAt - now, 1000))), store)
      else (Decision(true, None), store[key := store[key].(count := store[key].count + 1)])
    else (Decision(true, None), store[key := StoreEntry(1, now + config.window * 1000)])
  }

  class RateLimitStore {
    var store: map<string, StoreEntry>

    constructor ()
      ensures store == map[]
    {
      store := map[];
    }

    method CheckRateLimit(userId: string, route: string, plan: string, now: int, fails: bool) returns (d: Decision)
      modifies this
      ensures (d, store) == Decide(old(store), userId, route, plan, now, fails)
    {
      var config := PlanLimits(plan);
      var key := StoreKey(userId, route);
      if fails {
        return Decision(true, None);
      }
      if key in store && store[key].resetAt > now {
        var existing := store[key];
        if existing.count >= config.max {
          return Decision(false, Some(JsValue.CeilDiv(existing.resetAt - now, 1000)));
        }
        store := store[key := existing.(count := existing.count + 1)];
        return Decision(true, None);
      }
      store := store[key := StoreEntry(1, now + config.window * 1000)];
      d := Decision(true, None);
    }
  }

  /**
   * A call against a live window is refused exactly when the window's count has reached the
   * plan's limit; the wait it reports is the rest of the window rounded up to whole seconds.
   * An allowed call against a live window raises its count by one.
   */
  lemma LiveWindowDecision(store: map<string, StoreEntry>, userId: string, route: string, plan: string, now: int)
    requires StoreKey(userId, route) in store && store[StoreKey(userId, route)].resetAt > now
    ensures var key := StoreKey(userId, route);
      var (d, after) := Decide(store, userId, route, plan, now, false);
      && (d.allowed <==> store[key].count < PlanLimits(plan).max)
      && (!d.allowed ==>
            && d.retryAfter.Some? && after == store
            && 1000 * (d.retryAfter.value - 1) < store[key].resetAt - now <= 1000 * d.retryAfter.value
            && d.retryAfter.value >= 1)
      && (d.allowed ==> d.retryAfter.None? && key in after && after[key] == store[key].(count := store[key].count + 1))
  {
  }

  /** A missing or expired window is replaced by a new one counting this call, which is allowed. */
  lemma NewWindowDecision(store: map<string, StoreEntry>, userId: string, route: string, plan: string, now: int)
    requires StoreKey(userId, route) !in store || store[StoreKey(userId, route)].resetAt <= now
    ensures var key := StoreKey(userId, route);
      var (d, after) := Decide(store, userId, route, plan, now, false);
      && d == Decision(true, None)
      && key in after && after[key] == StoreEntry(1, now + 60000)
  {
  }

  /** A plan other than `pro` or `enterprise`, unknown ones included, gets 10 calls a minute. */
  lemma UnknownPlanIsFree(plan: string)
    requires plan != "pro" && plan != "enterprise"
    ensures PlanLimits(plan) == Limits(60, 10)
  {
  }

  /** Only the caller's key changes. */
  lemma OtherKeysUntouched(store: map<string, StoreEntry>, userId: string, route: string, plan: string, now: int, fails: bool, k: string)
    requires k != StoreKey(userId, route)
    ensures var after := Decide(store, userId, route, plan, now, fails).1;
      (k in after <==> k in store) && (k in after ==> after[k] == store[k])
  {
  }

  /** Internal errors fail open. */
  lemma FailsOpen(store: map<string, StoreEntry>, userId: string, route: string, plan: string, now: int)
    ensures Decide(store, userId, route, plan, now, true) == (Decision(true, None), store)
  {
  }

  /** `checkRateLimit` called for one key and plan at each of `times` in turn: how many were allowed, and the store afterwards. */
  function DecideAll(store: map<string, StoreEntry>, userId: string, route: string, plan: string, times: seq<int>): (r: (nat, map<string, StoreEntry>))
    ensures r.0 <= |times|
  {
    if times == [] then (0, store)
    else
      var (n, s) := DecideAll(store, userId, route, plan, times[..|times| - 1]);
      var (d, s') := Decide(s, userId, route, plan, times[|times| - 1], false);
      (n + (if d.allowed then 1 else 0), s')
  }

  function Min(a: int, b: int): int { if a <= b then a else b }

  /**
   * Starting from no live window, of `n` calls for one key and plan at times inside the
   * window the first call opens, exactly the first `max` are allowed, and the window then
   * counts them.
   */
  lemma {:induction false} AllowedPerWindow(store: map<string, StoreEntry>, userId: string, route: string, plan: string, times: seq<int>)
    requires |times| >= 1
    requires StoreKey(userId, route) !in store || store[StoreKey(userId, route)].resetAt <= times[0]
    requires forall i :: 0 <= i < |times| ==> times[0] <= times[i] < times[0] + 60000
    ensures var (n, after) := DecideAll(store, userId, route, plan, times);
      var key := StoreKey(userId, route);
      var max := PlanLimits(plan).max;
      && n == Min(|times|, max)
      && key in after
      && after[key] == StoreEntry(n, times[0] + 60000)
  {
    var init := times[..|times| - 1];
    if |times| > 1 {
      assert init[0] == times[0];
      assert forall i :: 0 <= i < |init| ==> init[i] == times[i];
      AllowedPerWindow(store, userId, route, plan, init);
    }
  }
}

/**
 * The fixed-window limiters in front of the API: `RateLimiter`, keyed by user and endpoint,
 * which counts only the calls it allows, and `IpRateLimiter`, keyed by client address.
 * `Date.now()` is the parameter `now`; the periodic cleanup timer is not modelled, only the
 * cleanup it runs.
 */
module RateLimit {
  import opened Wrappers
  import opened Text
  import opened Keyed
  import JsValue

  /** `RateLimitConfig`; `keyGenerator` is optional and defaults to `userId:endpoint`. */
  datatype Config = Config(windowMs: int, maxRequests: int, keyGenerator: Option<(string, string) -> string>)

  /** `RateLimitEntry`. */
  datatype LimitEntry = LimitEntry(count: int, resetTime: int, firstRequest: int)

  /** The result of `checkLimit`. */
  datatype Verdict = Verdict(allowed: bool, remaining: int, resetTime: int, limit: int)

  const StandardLimits := Config(60000, 100, None)
  const AiAnalysisLimits := Config(60000, 10, None)
  const BulkOperationLimits := Config(60000, 5, None)
  const AuthLimits := Config(15 * 60000, 20, None)

  function DefaultKey(userId: string, endpoint: string): string {
    userId + ":" + endpoint
  }

  function KeyOf(cfg: Config, userId: string, endpoint: string): string {
    match cfg.keyGenerator
    case Some(g) => g(userId, endpoint)
    case None => DefaultKey(userId, endpoint)
  }

  /** The stored entry for `key` when its window is still open at `now`. */
  predicate Live(slots: seq<Slot<LimitEntry>>, key: string, now: int) {
    IndexOf(slots, key).Some? && now < slots[IndexOf(slots, key).value].val.resetTime
  }

  /** The entry a call at `now` counts against: the stored one while its window is open, else a new window. */
  function Current(slots: seq<Slot<LimitEntry>>, key: string, windowMs: int, now: int): LimitEntry {
    if Live(slots, key, now) then slots[IndexOf(slots, key).value].val else LimitEntry(0, now + windowMs, now)
  }

  function Max0(x: int): (r: int)
    ensures r >= 0 && r >= x && (r == 0 || r == x)
  {
    if x > 0 then x else 0
  }

  /** The specification of `CheckLimit`: the verdict and the entries afterwards. */
  function Checked(slots: seq<Slot<LimitEntry>>, cfg: Config, userId: string, endpoint: string, now: int): (Verdict, seq<Slot<LimitEntry>>) {
    var key := KeyOf(cfg, userId, endpoint);
    var e := Current(slots, key, cfg.windowMs, now);
    var allowed := e.count < cfg.maxRequests;
    var e' := if allowed then e.(count := e.count + 1) else e;
    (Verdict(allowed, Max0(cfg.maxRequests - e'.count), e'.resetTime, cfg.maxRequests),
     if allowed then Put(slots, key, e') else slots)
  }

  /**
   * What every stored entry satisfies: keys are distinct, each count lies between 1 and the
   * limit (so nothing is stored when the limit is below 1), and each window is `windowMs` long.
   */
  predicate WellFormed(slots: seq<Slot<LimitEntry>>, cfg: Config) {
    && DistinctKeys(slots)
    && forall i :: 0 <= i < |slots| ==>
         1 <= slots[i].val.count <= cfg.maxRequests && slots[i].val.resetTime == slots[i].val.firstRequest + cfg.windowMs
  }

  /** The specification of `Reset`: one key when the endpoint is truthy, else every key prefixed `userId:`. */
  function AfterReset(slots: seq<Slot<LimitEntry>>, cfg: Config, userId: string, endpoint: Option<string>): seq<Slot<LimitEntry>> {
    if endpoint.Some? && endpoint.value != "" then Remove(slots, KeyOf(cfg, userId, endpoint.value))
    else Filter(slots, (s: Slot<LimitEntry>) => !StartsWith(s.key, userId + ":"))
  }

  /** The specification of `Cleanup`: the entries whose window is still open. */
  function Unexpired(slots: seq<Slot<LimitEntry>>, now: int): seq<Slot<LimitEntry>> {
    Filter(slots, (s: Slot<LimitEntry>) => now < s.val.resetTime)
  }

  /** `key.split(':')[0]`. */
  function Owner(key: string): string {
    SplitOn(key, ':')[0]
  }

  /** The request total per owner, owners in order of first appearance. */
  function UserTotals(slots: seq<Slot<LimitEntry>>): (r: seq<Slot<int>>)
    ensures DistinctKeys(r)
  {
    if slots == [] then []
    else
      var rest := UserTotals(slots[..|slots| - 1]);
      var last := slots[|slots| - 1];
      AddToGet(rest, Owner(last.key), last.val.count, "");
      AddTo(rest, Owner(last.key), last.val.count)
  }

  /** The sum of the counts of the entries owned by `uid`. */
  function TotalFor(slots: seq<Slot<LimitEntry>>, uid: string): int {
    if slots == [] then 0
    else TotalFor(slots[..|slots| - 1], uid) + (if Owner(slots[|slots| - 1].key) == uid then slots[|slots| - 1].val.count else 0)
  }

  /** A user's total as the number the sort compares. */
  function Total(v: int): real {
    v as real
  }

  const TopUsersLimit: nat := 10

  function TopUsers(stats: seq<Slot<int>>): seq<Slot<int>> {
    var s := SortBy(stats, Total);
    if |s| <= TopUsersLimit then s else s[..TopUsersLimit]
  }

  /** The result of `getStats`; each top user is a slot from user id to total requests. */
  datatype Stats = Stats(totalEntries: nat, activeUsers: nat, topUsers: seq<Slot<int>>)

  function StatsOf(slots: seq<Slot<LimitEntry>>): Stats {
    Stats(|slots|, |UserTotals(slots)|, TopUsers(UserTotals(slots)))
  }

  /** The details `applyRateLimit` attaches to its `resourceExhausted` error. */
  datatype Exceeded = Exceeded(limit: int, remaining: int, resetTime: int, retryAfter: int)

  class RateLimiter {
    var requests: seq<Slot<LimitEntry>>
    const config: Config

    ghost predicate Valid()
      reads this
    {
      WellFormed(requests, config)
    }

    constructor (config: Config)
      ensures Valid() && requests == [] && this.config == config
    {
      this.config := config;
      requests := [];
    }

    method CheckLimit(userId: string, endpoint: string, now: int) returns (v: Verdict)
      requires Valid()
      modifies this
      ensures Valid()
      ensures (v, requests) == Checked(old(requests), config, userId, endpoint, now)
    {
      var key := KeyOf(config, userId, endpoint);
      var found := IndexOf(requests, key);
      var entry: LimitEntry;
      if found.None? || now >= requests[found.value].val.resetTime {
        entry := LimitEntry(0, now + config.windowMs, now);
      } else {
        entry := requests[found.value].val;
      }
      var allowed := entry.count < config.maxRequests;
      CheckKeepsWellFormed(requests, config, userId, endpoint, now);
      if allowed {
        entry := entry.(count := entry.count + 1);
        requests := Put(requests, key, entry);
      }
      var remaining := if config.maxRequests - entry.count > 0 then config.maxRequests - entry.count else 0;
      v := Verdict(allowed, remaining, entry.resetTime, config.maxRequests);
    }

    method Reset(userId: string, endpoint: Option<string>)
      requires Valid()
      modifies this
      ensures Valid()
      ensures requests == AfterReset(old(requests), config, userId, endpoint)
    {
      if endpoint.Some? && endpoint.value != "" {
        var key := KeyOf(config, userId, endpoint.value);
        RemoveDropsKey(requests, key);
        ResetOneKeepsWellFormed(requests, config, key);
        requests := Remove(requests, key);
      } else {
        var userPrefix := userId + ":";
        ghost var keep := (s: Slot<LimitEntry>) => !StartsWith(s.key, userId + ":");
        var kept: seq<Slot<LimitEntry>> := [];
        for i := 0 to |requests|
          invariant kept == Filter(requests[..i], keep)
        {
          assert requests[..i + 1][..i] == requests[..i];
          if !StartsWith(requests[i].key, userPrefix) {
            kept := kept + [requests[i]];
          }
        }
        assert requests[..|requests|] == requests;
        FilterKeepsWellFormed(requests, config, keep);
        requests := kept;
      }
    }

    method Cleanup(now: int)
      requires Valid()
      modifies this
      ensures Valid()
      ensures requests == Unexpired(old(requests), now)
    {
      ghost var keep := (s: Slot<LimitEntry>) => now < s.val.resetTime;
      var kept: seq<Slot<LimitEntry>> := [];
      for i := 0 to |requests|
        invariant kept == Filter(requests[..i], keep)
      {
        assert requests[..i + 1][..i] == requests[..i];
        if now < requests[i].val.resetTime {
          kept := kept + [requests[i]];
        }
      }
      assert requests[..|requests|] == requests;
      FilterKeepsWellFormed(requests, config, keep);
      requests := kept;
    }

    method GetStats() returns (stats: Stats)
      ensures stats == StatsOf(requests)
    {
      var userStats: seq<Slot<int>> := [];
      for i := 0 to |requests|
        invariant userStats == UserTotals(requests[..i])
      {
        assert requests[..i + 1][..i] == requests[..i];
        var uid := Owner(requests[i].key);
        var current := 0;
        var found := IndexOf(userStats, uid);
        if found.Some? {
          current := userStats[found.value].val;
        }
        userStats := Put(userStats, uid, current + requests[i].val.count);
        assert userStats == AddTo(UserTotals(requests[..i]), Owner(requests[i].key), requests[i].val.count);
      }
      assert requests[..|requests|] == requests;
      stats := Stats(|requests|, |userStats|, TopUsers(userStats));
    }
  }

  /** `applyRateLimit`: the error details when the call is refused; `later` is the second `Date.now()`. */
  method ApplyRateLimit(limiter: RateLimiter, userId: string, endpoint: string, now: int, later: int) returns (r: Option<Exceeded>)
    requires limiter.Valid()
    modifies limiter
    ensures limiter.Valid()
    ensures var (v, after) := Checked(old(limiter.requests), limiter.config, userId, endpoint, now);
      && limiter.requests == after
      && (r.Some? <==> !v.allowed)
      && (r.Some? ==> r.value == Exceeded(v.limit, v.remaining, v.resetTime, JsValue.CeilDiv(v.resetTime - later, 1000)))
  {
    var v := limiter.CheckLimit(userId, endpoint, now);
    if !v.allowed {
      return Some(Exceeded(v.limit, v.remaining, v.resetTime, JsValue.CeilDiv(v.resetTime - later, 1000)));
    }
    r := None;
  }

  lemma CheckKeepsWellFormed(slots: seq<Slot<LimitEntry>>, cfg: Config, userId: string, endpoint: string, now: int)
    requires WellFormed(slots, cfg)
    ensures WellFormed(Checked(slots, cfg, userId, endpoint, now).1, cfg)
  {
    var key := KeyOf(cfg, userId, endpoint);
    var e := Current(slots, key, cfg.windowMs, now);
    if e.count < cfg.maxRequests {
      var e' := e.(count := e.count + 1);
      PutKeepsDistinct(slots, key, e');
      var r := Put(slots, key, e');
      forall i | 0 <= i < |r|
        ensures 1 <= r[i].val.count <= cfg.maxRequests && r[i].val.resetTime == r[i].val.firstRequest + cfg.windowMs
      {
        if i < |slots| && r[i] != Slot(key, e') {
          assert r[i] == slots[i];
        }
      }
    }
  }

  lemma ResetOneKeepsWellFormed(slots: seq<Slot<LimitEntry>>, cfg: Config, key: string)
    requires WellFormed(slots, cfg)
    ensures WellFormed(Remove(slots, key), cfg)
  {
    RemoveDropsKey(slots, key);
  }

  lemma FilterKeepsWellFormed(slots: seq<Slot<LimitEntry>>, cfg: Config, keep: Slot<LimitEntry> -> bool)
    requires WellFormed(slots, cfg)
    ensures WellFormed(Filter(slots, keep), cfg)
  {
    FilterKeepsDistinct(slots, keep);
  }

  /**
   * One call: it is allowed exactly when the count of the open window (zero for a missing or
   * expired entry) is below the limit. An allowed call stores that window with its count one
   * higher and leaves every other key as it was; a refused call changes nothing. The remaining
   * allowance is the limit less the new count, and never negative.
   */
  lemma CheckOutcome(slots: seq<Slot<LimitEntry>>, cfg: Config, userId: string, endpoint: string, now: int, other: string)
    requires DistinctKeys(slots)
    ensures var key := KeyOf(cfg, userId, endpoint);
      var (v, after) := Checked(slots, cfg, userId, endpoint, now);
      var before := if Live(slots, key, now) then slots[IndexOf(slots, key).value].val.count else 0;
      var reset := if Live(slots, key, now) then slots[IndexOf(slots, key).value].val.resetTime else now + cfg.windowMs;
      && (v.allowed <==> before < cfg.maxRequests)
      && v.limit == cfg.maxRequests
      && v.resetTime == reset
      && v.remaining == Max0(cfg.maxRequests - before - (if v.allowed then 1 else 0))
      && (!v.allowed ==> after == slots)
      && (v.allowed ==> IndexOf(after, key).Some? && after[IndexOf(after, key).value].val.count == before + 1
                        && after[IndexOf(after, key).value].val.resetTime == reset)
      && (v.allowed && other != key ==>
            && (IndexOf(after, other).Some? <==> IndexOf(slots, other).Some?)
            && (IndexOf(after, other).Some? ==> after[IndexOf(after, other).value] == slots[IndexOf(slots, other).value]))
  {
    var key := KeyOf(cfg, userId, endpoint);
    var e := Current(slots, key, cfg.windowMs, now);
    PutThenGet(slots, key, e.(count := e.count + 1), other);
  }

  /** `n` checks of one user and endpoint at the given times: how many were allowed, and the entries afterwards. */
  function CheckAll(slots: seq<Slot<LimitEntry>>, cfg: Config, userId: string, endpoint: string, times: seq<int>): (r: (nat, seq<Slot<LimitEntry>>))
    ensures r.0 <= |times|
  {
    if times == [] then (0, slots)
    else
      var (n, s) := CheckAll(slots, cfg, userId, endpoint, times[..|times| - 1]);
      var (v, s') := Checked(s, cfg, userId, endpoint, times[|times| - 1]);
      (n + (if v.allowed then 1 else 0), s')
  }

  function Min(a: int, b: int): int { if a <= b then a else b }

  /**
   * Within one window, opened by the first of a run of calls for a key with no open window,
   * the limiter allows exactly `min(n, maxRequests)` of `n` calls, and the stored window then
   * counts them.
   */
  lemma {:induction false} AllowedPerWindow(slots: seq<Slot<LimitEntry>>, cfg: Config, userId: string, endpoint: string, times: seq<int>)
    requires DistinctKeys(slots) && |times| >= 1
    requires !Live(slots, KeyOf(cfg, userId, endpoint), times[0])
    requires forall i :: 0 <= i < |times| ==> times[0] <= times[i] < times[0] + cfg.windowMs
    ensures var (n, after) := CheckAll(slots, cfg, userId, endpoint, times);
      var key := KeyOf(cfg, userId, endpoint);
      && n == Min(|times|, Max0(cfg.maxRequests))
      && DistinctKeys(after)
      && (cfg.maxRequests >= 1 ==>
            IndexOf(after, key).Some?
            && after[IndexOf(after, key).value].val == LimitEntry(n, times[0] + cfg.windowMs, times[0]))
      && (cfg.maxRequests < 1 ==> after == slots)
  {
    var key := KeyOf(cfg, userId, endpoint);
    var init := times[..|times| - 1];
    var t := times[|times| - 1];
    if |times| == 1 {
      assert init == [];
      CheckOutcome(slots, cfg, userId, endpoint, t, key);
      PutKeepsDistinct(slots, key, Current(slots, key, cfg.windowMs, t).(count := 1));
      if cfg.maxRequests >= 1 {
        PutThenGet(slots, key, LimitEntry(1, t + cfg.windowMs, t), key);
      }
    } else {
      assert init[0] == times[0];
      assert forall i :: 0 <= i < |init| ==> init[i] == times[i];
      AllowedPerWindow(slots, cfg, userId, endpoint, init);
      var (n, s) := CheckAll(slots, cfg, userId, endpoint, init);
      CheckOutcome(s, cfg, userId, endpoint, t, key);
      var e := Current(s, key, cfg.windowMs, t);
      PutThenGet(s, key, e.(count := e.count + 1), key);
    }
  }

  /** Reset with a truthy endpoint deletes that one key and keeps every other entry in order. */
  lemma ResetEndpointDropsOneKey(slots: seq<Slot<LimitEntry>>, cfg: Config, userId: string, endpoint: string)
    requires DistinctKeys(slots) && endpoint != ""
    ensures var r := AfterReset(slots, cfg, userId, Some(endpoint));
      var key := KeyOf(cfg, userId, endpoint);
      && IndexOf(r, key).None?
      && (forall i :: 0 <= i < |slots| && slots[i].key != key ==> slots[i] in r)
      && (forall i :: 0 <= i < |r| ==> r[i] in slots)
  {
    var key := KeyOf(cfg, userId, endpoint);
    RemoveDropsKey(slots, key);
    if IndexOf(slots, key).Some? {
      var i := IndexOf(slots, key).value;
      var r := Remove(slots, key);
      forall j | 0 <= j < |r|
        ensures r[j] in slots
      {
        assert r[j] == if j < i then slots[j] else slots[j + 1];
      }
    }
  }

  /**
   * Reset without an endpoint, or with an empty one, deletes exactly the entries whose key
   * starts with `userId:`, which includes every default key of that user.
   */
  lemma ResetUserDropsPrefixed(slots: seq<Slot<LimitEntry>>, cfg: Config, userId: string, endpoint: Option<string>, e: string)
    requires endpoint.None? || endpoint.value == ""
    ensures var r := AfterReset(slots, cfg, userId, endpoint);
      && (forall i :: 0 <= i < |r| ==> r[i] in slots && !StartsWith(r[i].key, userId + ":"))
      && (forall i :: 0 <= i < |slots| && !StartsWith(slots[i].key, userId + ":") ==> slots[i] in r)
      && StartsWith(DefaultKey(userId, e), userId + ":")
  {
    assert DefaultKey(userId, e)[..|userId + ":"|] == userId + ":";
  }

  /** The prefix match also reaches other users whose id begins with `userId:`. */
  lemma ResetUserReachesColonUsers(userId: string, rest: string, e: string)
    ensures StartsWith(DefaultKey(userId + ":" + rest, e), userId + ":")
  {
    assert DefaultKey(userId + ":" + rest, e)[..|userId + ":"|] == userId + ":";
  }

  /** Cleanup keeps exactly the entries whose window is open at `now`. */
  lemma CleanupKeepsOpenWindows(slots: seq<Slot<LimitEntry>>, now: int)
    ensures var r := Unexpired(slots, now);
      && (forall i :: 0 <= i < |r| ==> r[i] in slots && now < r[i].val.resetTime)
      && (forall i :: 0 <= i < |slots| && now < slots[i].val.resetTime ==> slots[i] in r)
  {
  }

  /** The owners listed in the totals are exactly the owners of the entries. */
  lemma {:induction false} UserTotalsOwners(slots: seq<Slot<LimitEntry>>, uid: string)
    ensures IndexOf(UserTotals(slots), uid).Some? <==> Owns(slots, uid)
  {
    if slots != [] {
      var init := slots[..|slots| - 1];
      var last := slots[|slots| - 1];
      UserTotalsOwners(init, uid);
      AddToGet(UserTotals(init), Owner(last.key), last.val.count, uid);
      OwnsSplit(slots, uid);
    }
  }

  /** Some entry is owned by `uid`. */
  predicate Owns(slots: seq<Slot<LimitEntry>>, uid: string) {
    exists i :: 0 <= i < |slots| && Owner(slots[i].key) == uid
  }

  lemma OwnsSplit(slots: seq<Slot<LimitEntry>>, uid: string)
    requires slots != []
    ensures Owns(slots, uid) <==> Owner(slots[|slots| - 1].key) == uid || Owns(slots[..|slots| - 1], uid)
  {
    var init := slots[..|slots| - 1];
    if Owns(slots, uid) {
      var i :| 0 <= i < |slots| && Owner(slots[i].key) == uid;
      if i < |init| {
        assert init[i] == slots[i];
      }
    }
    if Owns(init, uid) {
      var i :| 0 <= i < |init| && Owner(init[i].key) == uid;
      assert slots[i] == init[i];
    }
  }

  /** The total listed for an owner is the sum of the counts of its entries (and 0 for anyone else). */
  lemma {:induction false} UserTotalsAreSums(slots: seq<Slot<LimitEntry>>, uid: string)
    ensures Get0(UserTotals(slots), uid) == TotalFor(slots, uid)
  {
    if slots != [] {
      var init := slots[..|slots| - 1];
      var last := slots[|slots| - 1];
      UserTotalsAreSums(init, uid);
      AddToGet(UserTotals(init), Owner(last.key), last.val.count, uid);
    }
  }

  /**
   * The top users are at most ten of the totals, sorted by descending total, and no user left
   * out has a larger total than any user listed.
   */
  lemma TopUsersAreTop(stats: seq<Slot<int>>)
    requires DistinctKeys(stats)
    ensures var top := TopUsers(stats);
      && |top| == Min(|stats|, TopUsersLimit)
      && SortedBy(top, Total)
      && (forall i :: 0 <= i < |top| ==> top[i] in stats)
      && (forall x, j :: x in stats && x !in top && 0 <= j < |top| ==> top[j].val >= x.val)
  {
    var s := SortBy(stats, Total);
    var top := TopUsers(stats);
    forall i | 0 <= i < |top|
      ensures top[i] in stats
    {
      assert top[i] == s[i];
      assert s[i] in multiset(s);
    }
    forall x, j | x in stats && x !in top && 0 <= j < |top|
      ensures top[j].val >= x.val
    {
      assert x in multiset(stats);
      assert x in multiset(s);
      var k :| 0 <= k < |s| && s[k] == x;
      assert top[j] == s[j];
    }
  }

  /** The exported `ipLimiter`: 100 requests a minute per address (the constructor's own default is 50). */
  const IpWindowMs: int := 60000
  const IpMaxRequests: int := 100

  /** `IpRateLimitEntry`. */
  datatype IpEntry = IpEntry(count: int, resetTime: int)

  /** The specification of `IpRateLimiter.CheckLimit`. */
  function IpChecked(requests: map<string, IpEntry>, windowMs: int, maxRequests: int, ip: string, now: int): (bool, map<string, IpEntry>) {
    if ip !in requests || now >= requests[ip].resetTime then (true, requests[ip := IpEntry(1, now + windowMs)])
    else if requests[ip].count >= maxRequests then (false, requests)
    else (true, requests[ip := requests[ip].(count := requests[ip].count + 1)])
  }

  /** Every stored count lies between 1 and the limit, or is 1 when the limit is below 1. */
  predicate IpWellFormed(requests: map<string, IpEntry>, maxRequests: int) {
    forall ip :: ip in requests ==> 1 <= requests[ip].count <= (if maxRequests >= 1 then maxRequests else 1)
  }

  class IpRateLimiter {
    var requests: map<string, IpEntry>
    const windowMs: int
    const maxRequests: int

    ghost predicate Valid()
      reads this
    {
      IpWellFormed(requests, maxRequests)
    }

    constructor (windowMs: int, maxRequests: int)
      ensures Valid() && requests == map[] && this.windowMs == windowMs && this.maxRequests == maxRequests
    {
      this.windowMs := windowMs;
      this.maxRequests := maxRequests;
      requests := map[];
    }

    method CheckLimit(ip: string, now: int) returns (allowed: bool)
      requires Valid()
      modifies this
      ensures Valid()
      ensures (allowed, requests) == IpChecked(old(requests), windowMs, maxRequests, ip, now)
    {
      if ip !in requests || now >= requests[ip].resetTime {
        requests := requests[ip := IpEntry(1, now + windowMs)];
        return true;
      }
      var entry := requests[ip];
      if entry.count >= maxRequests {
        return false;
      }
      requests := requests[ip := entry.(count := entry.count + 1)];
      allowed := true;
    }

    method Cleanup(now: int)
      requires Valid()
      modifies this
      ensures Valid()
      ensures requests == map ip | ip in old(requests) && now < old(requests)[ip].resetTime :: old(requests)[ip]
    {
      var pending := requests.Keys;
      ghost var target := map ip | ip in requests && now < requests[ip].resetTime :: requests[ip];
      ghost var original := requests;
      while pending != {}
        invariant pending <= original.Keys
        invariant forall ip :: ip in requests <==> ip in original && (ip in pending || now < original[ip].resetTime)
        invariant forall ip :: ip in requests ==> requests[ip] == original[ip]
        decreases |pending|
      {
        var ip :| ip in pending;
        if now >= requests[ip].resetTime {
          requests := map k | k in requests && k != ip :: requests[k];
        }
        pending := pending - {ip};
      }
      assert requests == target;
    }
  }

  /**
   * The first call for an address in a window is allowed and stores count 1; a later call in
   * the window is refused once the count has reached the limit and otherwise increments it.
   */
  lemma IpCheckOutcome(requests: map<string, IpEntry>, windowMs: int, maxRequests: int, ip: string, now: int)
    ensures var (allowed, after) := IpChecked(requests, windowMs, maxRequests, ip, now);
      && (ip !in requests || now >= requests[ip].resetTime ==>
            allowed && ip in after && after[ip] == IpEntry(1, now + windowMs))
      && (ip in requests && now < requests[ip].resetTime ==>
            (allowed <==> requests[ip].count < maxRequests)
            && (allowed ==> ip in after && after[ip].count == requests[ip].count + 1 && after[ip].resetTime == requests[ip].resetTime)
            && (!allowed ==> after == requests))
      && (forall k :: k != ip ==> (k in after <==> k in requests) && (k in after ==> after[k] == requests[k]))
  {
  }

  lemma IpCheckKeepsWellFormed(requests: map<string, IpEntry>, windowMs: int, maxRequests: int, ip: string, now: int)
    requires IpWellFormed(requests, maxRequests)
    ensures IpWellFormed(IpChecked(requests, windowMs, maxRequests, ip, now).1, maxRequests)
  {
  }
}

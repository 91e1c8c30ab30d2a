/**
 * `MemoryCache`: a `Map` from keys to entries with an expiry time and a creation time,
 * bounded by `maxSize` through eviction of the oldest entry, and the cache-key helpers.
 * The `Map` keeps its keys in insertion order, which `evictOldest` depends on, so the
 * entries are a sequence of slots with distinct keys. `Date.now()` is the parameter `now`.
 */
module Cache {
  import opened Wrappers
  import opened Text
  import opened Keyed

  const DefaultMaxSize: nat := 1000
  const DefaultTtl: int := 300000

  datatype Entry<T> = Entry(value: T, expiresAt: int, createdAt: int)

  predicate Expired<T>(e: Entry<T>, now: int) {
    now > e.expiresAt
  }

  /** The entries `cleanup` keeps: those not yet expired, in order. */
  function Live<T>(slots: seq<Slot<Entry<T>>>, now: int): (r: seq<Slot<Entry<T>>>)
    ensures |r| <= |slots|
    ensures forall i :: 0 <= i < |r| ==> r[i] in slots && !Expired(r[i].val, now)
    ensures forall i :: 0 <= i < |slots| && !Expired(slots[i].val, now) ==> slots[i] in r
  {
    Filter(slots, (s: Slot<Entry<T>>) => !Expired(s.val, now))
  }

  /** `ttl || this.defaultTTL`: a missing or zero ttl means the default. */
  function TtlOf(ttl: Option<int>, defaultTtl: int): (t: int)
    ensures ttl.Some? && ttl.value != 0 ==> t == ttl.value
    ensures ttl.None? || ttl.value == 0 ==> t == defaultTtl
  {
    if ttl.Some? && ttl.value != 0 then ttl.value else defaultTtl
  }

  /** The `evictOldest` scan over the first `n` slots: the slot found so far and its creation time. */
  function OldestScan<T>(slots: seq<Slot<Entry<T>>>, n: nat, now: int): (r: (Option<nat>, int))
    requires n <= |slots|
    ensures r.0.Some? ==> r.0.value < n
  {
    if n == 0 then (None, now)
    else
      var prev := OldestScan(slots, n - 1, now);
      if slots[n - 1].val.createdAt < prev.1 then (Some(n - 1), slots[n - 1].val.createdAt) else prev
  }

  /** The specification of `EvictOldest`; an empty-string key is falsy and is never deleted. */
  function Evicted<T>(slots: seq<Slot<Entry<T>>>, now: int): seq<Slot<Entry<T>>> {
    match OldestScan(slots, |slots|, now).0
    case None => slots
    case Some(i) => if slots[i].key != "" then Remove(slots, slots[i].key) else slots
  }

  /** The specification of `Set`. */
  function Stored<T>(slots: seq<Slot<Entry<T>>>, maxSize: nat, defaultTtl: int, key: string, value: T, ttl: Option<int>, now: int): seq<Slot<Entry<T>>> {
    var s := if |slots| >= maxSize then Evicted(slots, now) else slots;
    Put(s, key, Entry(value, now + TtlOf(ttl, defaultTtl), now))
  }

  /** The specification of `Get` and `Has`: the value, and the slots after an expired entry is dropped. */
  function Lookup<T>(slots: seq<Slot<Entry<T>>>, key: string, now: int): (Option<T>, seq<Slot<Entry<T>>>) {
    match IndexOf(slots, key)
    case None => (None, slots)
    case Some(i) =>
      if Expired(slots[i].val, now) then (None, Remove(slots, key)) else (Some(slots[i].val.value), slots)
  }

  class MemoryCache<T> {
    var slots: seq<Slot<Entry<T>>>
    const maxSize: nat
    const defaultTtl: int

    ghost predicate Valid()
      reads this
    {
      DistinctKeys(slots)
    }

    /** `new MemoryCache(maxSize, defaultTTL)`; the defaults are 1000 entries and 5 minutes. */
    constructor (maxSize: nat, defaultTtl: int)
      ensures Valid() && slots == [] && this.maxSize == maxSize && this.defaultTtl == defaultTtl
    {
      this.maxSize := maxSize;
      this.defaultTtl := defaultTtl;
      slots := [];
    }

    method Get(key: string, now: int) returns (r: Option<T>)
      requires Valid()
      modifies this
      ensures Valid()
      ensures (r, slots) == Lookup(old(slots), key, now)
    {
      var found := IndexOf(slots, key);
      if found.None? {
        return None;
      }
      var entry := slots[found.value].val;
      if now > entry.expiresAt {
        RemoveDropsKey(slots, key);
        slots := Remove(slots, key);
        return None;
      }
      r := Some(entry.value);
    }

    method Has(key: string, now: int) returns (present: bool)
      requires Valid()
      modifies this
      ensures Valid()
      ensures present == Lookup(old(slots), key, now).0.Some?
      ensures slots == Lookup(old(slots), key, now).1
    {
      var found := IndexOf(slots, key);
      if found.None? {
        return false;
      }
      if now > slots[found.value].val.expiresAt {
        RemoveDropsKey(slots, key);
        slots := Remove(slots, key);
        return false;
      }
      present := true;
    }

    method Set(key: string, value: T, ttl: Option<int>, now: int)
      requires Valid()
      modifies this
      ensures Valid()
      ensures slots == Stored(old(slots), maxSize, defaultTtl, key, value, ttl, now)
    {
      var ttlMs := if ttl.Some? && ttl.value != 0 then ttl.value else defaultTtl;
      if |slots| >= maxSize {
        EvictOldest(now);
      }
      PutKeepsDistinct(slots, key, Entry(value, now + ttlMs, now));
      slots := Put(slots, key, Entry(value, now + ttlMs, now));
    }

    method Delete(key: string) returns (deleted: bool)
      requires Valid()
      modifies this
      ensures Valid()
      ensures deleted <==> exists i :: 0 <= i < |old(slots)| && old(slots)[i].key == key
      ensures slots == Remove(old(slots), key)
    {
      deleted := IndexOf(slots, key).Some?;
      RemoveDropsKey(slots, key);
      slots := Remove(slots, key);
    }

    method Clear()
      modifies this
      ensures Valid() && slots == []
    {
      slots := [];
    }

    /** The keys of the entries still live at `now`, in insertion order; nothing is deleted. */
    method Keys(now: int) returns (keys: seq<string>)
      ensures keys == KeysOf(Live(slots, now))
    {
      keys := [];
      for i := 0 to |slots|
        invariant keys == KeysOf(Live(slots[..i], now))
      {
        assert slots[..i + 1][..i] == slots[..i];
        if now <= slots[i].val.expiresAt {
          keys := keys + [slots[i].key];
        }
      }
      assert slots[..|slots|] == slots;
    }

    /** `size()`: runs `cleanup` first. */
    method Size(now: int) returns (n: nat)
      requires Valid()
      modifies this
      ensures Valid()
      ensures slots == Live(old(slots), now) && n == |slots|
    {
      var _ := Cleanup(now);
      n := |slots|;
    }

    /** Deletes every expired entry and reports how many went. */
    method Cleanup(now: int) returns (deletedCount: nat)
      requires Valid()
      modifies this
      ensures Valid()
      ensures slots == Live(old(slots), now)
      ensures deletedCount == |old(slots)| - |slots|
    {
      var kept: seq<Slot<Entry<T>>> := [];
      deletedCount := 0;
      for i := 0 to |slots|
        invariant kept == Live(slots[..i], now)
        invariant deletedCount + |kept| == i
      {
        assert slots[..i + 1][..i] == slots[..i];
        if now > slots[i].val.expiresAt {
          deletedCount := deletedCount + 1;
        } else {
          kept := kept + [slots[i]];
        }
      }
      assert slots[..|slots|] == slots;
      FilterKeepsDistinct(slots, (s: Slot<Entry<T>>) => !Expired(s.val, now));
      slots := kept;
    }

    /** Deletes the first entry with the smallest creation time before `now`, if its key is truthy. */
    method EvictOldest(now: int)
      requires Valid()
      modifies this
      ensures Valid()
      ensures slots == Evicted(old(slots), now)
    {
      var oldest: Option<nat> := None;
      var oldestTime := now;
      for i := 0 to |slots|
        invariant (oldest, oldestTime) == OldestScan(slots, i, now)
      {
        if slots[i].val.createdAt < oldestTime {
          oldestTime := slots[i].val.createdAt;
          oldest := Some(i);
        }
      }
      if oldest.Some? {
        var oldestKey := slots[oldest.value].key;
        if oldestKey != "" {
          RemoveDropsKey(slots, oldestKey);
          slots := Remove(slots, oldestKey);
        }
      }
    }
  }

  /**
   * The scan finds the first entry with the smallest creation time, provided that time is
   * before `now`; when no entry was created before `now` it finds nothing.
   */
  lemma {:induction false} OldestIsFirstMinimum<T>(slots: seq<Slot<Entry<T>>>, n: nat, now: int)
    requires n <= |slots|
    ensures var (found, t) := OldestScan(slots, n, now);
      && (found.None? <==> forall j :: 0 <= j < n ==> slots[j].val.createdAt >= now)
      && (found.Some? ==>
            && found.value < n && t == slots[found.value].val.createdAt && t < now
            && (forall j :: 0 <= j < n ==> slots[j].val.createdAt >= t)
            && (forall j :: 0 <= j < found.value ==> slots[j].val.createdAt > t))
      && (found.None? ==> t == now)
  {
    if n > 0 {
      OldestIsFirstMinimum(slots, n - 1, now);
    }
  }

  /**
   * When every entry was created in the current millisecond nothing is evicted, so setting
   * a new key into a full cache grows it past `maxSize`.
   */
  lemma SameMillisecondOverflow<T>(slots: seq<Slot<Entry<T>>>, maxSize: nat, defaultTtl: int, key: string, value: T, ttl: Option<int>, now: int)
    requires |slots| >= maxSize
    requires forall j :: 0 <= j < |slots| ==> slots[j].val.createdAt >= now && slots[j].key != key
    ensures Stored(slots, maxSize, defaultTtl, key, value, ttl, now)
         == slots + [Slot(key, Entry(value, now + TtlOf(ttl, defaultTtl), now))]
    ensures |Stored(slots, maxSize, defaultTtl, key, value, ttl, now)| == |slots| + 1
  {
    OldestIsFirstMinimum(slots, |slots|, now);
    PutNew(slots, key, Entry(value, now + TtlOf(ttl, defaultTtl), now));
  }

  /** The cache after `set` of each of `keys` in turn, all in the millisecond `now`. */
  function StoredAll<T>(slots: seq<Slot<Entry<T>>>, maxSize: nat, defaultTtl: int, keys: seq<string>, value: T, ttl: Option<int>, now: int): seq<Slot<Entry<T>>>
    decreases |keys|
  {
    if keys == [] then slots
    else StoredAll(Stored(slots, maxSize, defaultTtl, keys[0], value, ttl, now), maxSize, defaultTtl, keys[1..], value, ttl, now)
  }

  /**
   * Every further new key set in the same millisecond skips eviction too, so `n` such sets
   * into a cache at its bound leave it `n` entries over `maxSize`: the overflow has no bound.
   */
  lemma {:induction false} SameMillisecondGrowsWithoutBound<T>(slots: seq<Slot<Entry<T>>>, maxSize: nat, defaultTtl: int, keys: seq<string>, value: T, ttl: Option<int>, now: int)
    requires |slots| >= maxSize
    requires forall j :: 0 <= j < |slots| ==> slots[j].val.createdAt >= now
    requires forall i, j :: 0 <= i < |keys| && 0 <= j < |slots| ==> slots[j].key != keys[i]
    requires forall i, i' :: 0 <= i < i' < |keys| ==> keys[i] != keys[i']
    ensures |StoredAll(slots, maxSize, defaultTtl, keys, value, ttl, now)| == |slots| + |keys|
    decreases |keys|
  {
    if keys != [] {
      SameMillisecondOverflow(slots, maxSize, defaultTtl, keys[0], value, ttl, now);
      var next := Stored(slots, maxSize, defaultTtl, keys[0], value, ttl, now);
      assert forall j :: 0 <= j < |next| ==> next[j] == if j < |slots| then slots[j] else Slot(keys[0], Entry(value, now + TtlOf(ttl, defaultTtl), now));
      assert forall i :: 0 <= i < |keys| - 1 ==> keys[1..][i] == keys[i + 1];
      SameMillisecondGrowsWithoutBound(next, maxSize, defaultTtl, keys[1..], value, ttl, now);
    }
  }

  /** A cache at its bound whose oldest entry predates `now` and has a non-empty key stays at its bound. */
  lemma FullCacheStaysBounded<T>(slots: seq<Slot<Entry<T>>>, maxSize: nat, defaultTtl: int, key: string, value: T, ttl: Option<int>, now: int)
    requires DistinctKeys(slots) && |slots| == maxSize
    requires OldestScan(slots, |slots|, now).0.Some?
    requires slots[OldestScan(slots, |slots|, now).0.value].key != ""
    ensures |Stored(slots, maxSize, defaultTtl, key, value, ttl, now)| <= maxSize
  {
  }

  /** `Set` evicts whenever the cache is full, even when the key is already present. */
  lemma OverwriteStillEvicts<T>(slots: seq<Slot<Entry<T>>>, maxSize: nat, defaultTtl: int, key: string, value: T, ttl: Option<int>, now: int)
    requires |slots| >= maxSize
    ensures Stored(slots, maxSize, defaultTtl, key, value, ttl, now)
         == Put(Evicted(slots, now), key, Entry(value, now + TtlOf(ttl, defaultTtl), now))
  {
  }

  /** A value just stored is read back until its expiry time, and reported absent afterwards. */
  lemma GetAfterSet<T>(slots: seq<Slot<Entry<T>>>, maxSize: nat, defaultTtl: int, key: string, value: T, ttl: Option<int>, now: int, later: int)
    ensures var s := Stored(slots, maxSize, defaultTtl, key, value, ttl, now);
      var expiresAt := now + TtlOf(ttl, defaultTtl);
      && (later <= expiresAt ==> Lookup(s, key, later) == (Some(value), s))
      && (later > expiresAt ==> Lookup(s, key, later).0 == None)
  {
    var s0 := if |slots| >= maxSize then Evicted(slots, now) else slots;
    LookupAfterPut(s0, key, Entry(value, now + TtlOf(ttl, defaultTtl), now), later);
  }

  lemma LookupAfterPut<T>(s0: seq<Slot<Entry<T>>>, key: string, e: Entry<T>, later: int)
    ensures later <= e.expiresAt ==> Lookup(Put(s0, key, e), key, later) == (Some(e.value), Put(s0, key, e))
    ensures later > e.expiresAt ==> Lookup(Put(s0, key, e), key, later).0 == None
  {
    PutFinds(s0, key, e);
  }

  /** `keys` reports a key exactly when its entry has not expired. */
  lemma KeysAreLive<T>(slots: seq<Slot<Entry<T>>>, now: int, key: string)
    ensures key in KeysOf(Live(slots, now)) <==>
      exists i :: 0 <= i < |slots| && slots[i].key == key && !Expired(slots[i].val, now)
  {
    var live := Live(slots, now);
    if key in KeysOf(live) {
      var k :| 0 <= k < |live| && live[k].key == key;
      assert live[k] in slots;
    }
    if exists i :: 0 <= i < |slots| && slots[i].key == key && !Expired(slots[i].val, now) {
      var i :| 0 <= i < |slots| && slots[i].key == key && !Expired(slots[i].val, now);
      assert slots[i] in live;
      var k :| 0 <= k < |live| && live[k] == slots[i];
      assert KeysOf(live)[k] == key;
    }
  }

  /** Storing a new key into a cache with room appends it. */
  lemma StoreNewKey<T>(slots: seq<Slot<Entry<T>>>, maxSize: nat, defaultTtl: int, key: string, value: T, ttl: Option<int>, now: int)
    requires |slots| < maxSize
    requires forall j :: 0 <= j < |slots| ==> slots[j].key != key
    ensures Stored(slots, maxSize, defaultTtl, key, value, ttl, now)
         == slots + [Slot(key, Entry(value, now + TtlOf(ttl, defaultTtl), now))]
  {
  }

  lemma ThreeSets<T>(k1: string, k2: string, k3: string, v1: T, v2: T, v3: T, t1: int, t2: int, t3: int, defaultTtl: int)
    requires k1 != k2 && k1 != k3 && k2 != k3
    ensures var s1 := Stored([], 3, defaultTtl, k1, v1, None, t1);
      var s2 := Stored(s1, 3, defaultTtl, k2, v2, None, t2);
      Stored(s2, 3, defaultTtl, k3, v3, None, t3)
        == [Slot(k1, Entry(v1, t1 + defaultTtl, t1)), Slot(k2, Entry(v2, t2 + defaultTtl, t2)), Slot(k3, Entry(v3, t3 + defaultTtl, t3))]
  {
    var e1 := Slot(k1, Entry(v1, t1 + defaultTtl, t1));
    var e2 := Slot(k2, Entry(v2, t2 + defaultTtl, t2));
    var e3 := Slot(k3, Entry(v3, t3 + defaultTtl, t3));
    var s1 := Stored([], 3, defaultTtl, k1, v1, None, t1);
    AppendSet([], 3, defaultTtl, k1, v1, t1);
    var s2 := Stored(s1, 3, defaultTtl, k2, v2, None, t2);
    AppendSet(s1, 3, defaultTtl, k2, v2, t2);
    var s3 := Stored(s2, 3, defaultTtl, k3, v3, None, t3);
    AppendSet(s2, 3, defaultTtl, k3, v3, t3);
    assert s3[0] == e1 && s3[1] == e2 && s3[2] == e3;
  }

  /** `StoreNewKey` with the default ttl, stated on the entries as a list. */
  lemma AppendSet<T>(slots: seq<Slot<Entry<T>>>, maxSize: nat, defaultTtl: int, key: string, value: T, now: int)
    requires |slots| < maxSize
    requires forall j :: 0 <= j < |slots| ==> slots[j].key != key
    ensures Stored(slots, maxSize, defaultTtl, key, value, None, now) == slots + [Slot(key, Entry(value, now + defaultTtl, now))]
  {
    StoreNewKey(slots, maxSize, defaultTtl, key, value, None, now);
  }

  lemma FourthSet<T>(s3: seq<Slot<Entry<T>>>, k4: string, v4: T, t4: int, defaultTtl: int)
    requires |s3| == 3
    requires s3[0].val.createdAt < s3[1].val.createdAt < s3[2].val.createdAt < t4
    requires DistinctKeys(s3 + [Slot(k4, Entry(v4, t4 + defaultTtl, t4))])
    ensures var s4 := Stored(s3, 3, defaultTtl, k4, v4, None, t4);
      var e4 := Slot(k4, Entry(v4, t4 + defaultTtl, t4));
      s4 == if s3[0].key == "" then s3 + [e4] else s3[1..] + [e4]
  {
    var e4 := Slot(k4, Entry(v4, t4 + defaultTtl, t4));
    var all := s3 + [e4];
    assert forall j :: 0 <= j < 3 ==> s3[j] == all[j] && all[j].key != all[3].key;
    OldestOfThree(s3, t4);
    var s := Evicted(s3, t4);
    if s3[0].key != "" {
      RemoveFirst(s3);
      assert s == s3[1..];
    }
    assert forall j :: 0 <= j < |s| ==> s[j].key != k4;
    PutNew(s, k4, e4.val);
  }

  /** Of three entries created in increasing order before `now`, the scan finds the first. */
  lemma OldestOfThree<T>(s3: seq<Slot<Entry<T>>>, now: int)
    requires |s3| == 3
    requires s3[0].val.createdAt < s3[1].val.createdAt < s3[2].val.createdAt < now
    ensures OldestScan(s3, 3, now).0 == Some(0)
  {
    assert OldestScan(s3, 1, now) == (Some(0), s3[0].val.createdAt);
    assert OldestScan(s3, 2, now) == (Some(0), s3[0].val.createdAt);
  }

  /**
   * With room for three entries, setting four distinct keys at increasing times evicts the
   * first key, provided it is not the empty string, and keeps the other three in order.
   */
  lemma FourthSetEvictsFirst<T>(k1: string, k2: string, k3: string, k4: string, v1: T, v2: T, v3: T, v4: T,
                                 t1: int, t2: int, t3: int, t4: int, defaultTtl: int)
    requires k1 != k2 && k1 != k3 && k1 != k4 && k2 != k3 && k2 != k4 && k3 != k4
    requires t1 < t2 < t3 < t4
    ensures var s1 := Stored([], 3, defaultTtl, k1, v1, None, t1);
      var s2 := Stored(s1, 3, defaultTtl, k2, v2, None, t2);
      var s3 := Stored(s2, 3, defaultTtl, k3, v3, None, t3);
      var s4 := Stored(s3, 3, defaultTtl, k4, v4, None, t4);
      KeysOf(s4) == (if k1 == "" then [k1, k2, k3, k4] else [k2, k3, k4])
  {
    ThreeSets(k1, k2, k3, v1, v2, v3, t1, t2, t3, defaultTtl);
    var s3 := [Slot(k1, Entry(v1, t1 + defaultTtl, t1)), Slot(k2, Entry(v2, t2 + defaultTtl, t2)), Slot(k3, Entry(v3, t3 + defaultTtl, t3))];
    var e4 := Slot(k4, Entry(v4, t4 + defaultTtl, t4));
    var all := s3 + [e4];
    assert all[0].key == k1 && all[1].key == k2 && all[2].key == k3 && all[3].key == k4;
    FourthSet(s3, k4, v4, t4, defaultTtl);
    var s4 := if k1 == "" then all else s3[1..] + [e4];
    var keys := KeysOf(s4);
    if k1 == "" {
      assert keys[0] == k1 && keys[1] == k2 && keys[2] == k3 && keys[3] == k4;
    } else {
      assert keys[0] == k2 && keys[1] == k3 && keys[2] == k4;
    }
  }

  /** `generateCacheKey(prefix, ...parts)`: the prefix and the parts joined by `:`. */
  function CacheKey(prefix: string, parts: seq<string>): string {
    prefix + ":" + Join(parts, ":")
  }

  function UserCacheKey(userId: string, suffix: string): string {
    CacheKey("user", [userId, suffix])
  }

  function IdeaCacheKey(ideaId: int, userId: string): string {
    CacheKey("idea", [IntToString(ideaId), userId])
  }

  function AnalysisCacheKey(ideaId: int, trackType: string): string {
    CacheKey("analysis", [IntToString(ideaId), trackType])
  }

  /** A cache key splits on `:` back into its prefix and parts when none of them holds a `:`. */
  lemma CacheKeySplits(prefix: string, parts: seq<string>)
    requires |parts| >= 1 && ':' !in prefix
    requires forall k :: 0 <= k < |parts| ==> ':' !in parts[k]
    ensures SplitOn(CacheKey(prefix, parts), ':') == [prefix] + parts
  {
    SplitOnJoinPieces(parts, ':');
    SplitOnAfterPiece(prefix, ':', Join(parts, ":"));
    assert prefix + ":" + Join(parts, ":") == prefix + [':'] + Join(parts, ":");
  }

  /** The analysis key is `analysis:<id>:<type>`, so distinct ids or types give distinct keys. */
  lemma AnalysisKeysDistinct(id1: int, type1: string, id2: int, type2: string)
    requires ':' !in type1 && ':' !in type2
    requires AnalysisCacheKey(id1, type1) == AnalysisCacheKey(id2, type2)
    ensures id1 == id2 && type1 == type2
  {
    IntToStringHasNo(id1, ':');
    IntToStringHasNo(id2, ':');
    CacheKeySplits("analysis", [IntToString(id1), type1]);
    CacheKeySplits("analysis", [IntToString(id2), type2]);
    assert CacheKey("analysis", [IntToString(id1), type1]) == CacheKey("analysis", [IntToString(id2), type2]);
    var p1 := ["analysis"] + [IntToString(id1), type1];
    var p2 := ["analysis"] + [IntToString(id2), type2];
    assert p1 == p2;
    assert p1[1] == IntToString(id1) && p2[1] == IntToString(id2);
    assert p1[2] == type1 && p2[2] == type2;
    IntToStringInjective(id1, id2);
  }
}

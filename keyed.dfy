/**
 * A JavaScript `Map` with string keys: its entries in insertion order, each key at most once.
 * `set` on a present key replaces the value in place; on a new key it appends.
 */
module Keyed {
  import opened Wrappers

  datatype Slot<V> = Slot(key: string, val: V)

  predicate DistinctKeys<V>(slots: seq<Slot<V>>) {
    forall i, j :: 0 <= i < j < |slots| ==> slots[i].key != slots[j].key
  }

  /** `Map.get`: the position of `key`, if present. */
  function IndexOf<V>(slots: seq<Slot<V>>, key: string): (r: Option<nat>)
    ensures r.Some? ==> r.value < |slots| && slots[r.value].key == key
    ensures r.Some? ==> forall j :: 0 <= j < r.value ==> slots[j].key != key
    ensures r.None? <==> forall j :: 0 <= j < |slots| ==> slots[j].key != key
  {
    if slots == [] then None
    else if slots[0].key == key then Some(0)
    else match IndexOf(slots[1..], key)
      case None => None
      case Some(i) => Some(i + 1)
  }

  /** `Map.set`. */
  function Put<V>(slots: seq<Slot<V>>, key: string, v: V): (r: seq<Slot<V>>)
    ensures IndexOf(slots, key).Some? ==> |r| == |slots|
    ensures IndexOf(slots, key).None? ==> |r| == |slots| + 1
  {
    match IndexOf(slots, key)
    case Some(i) => slots[i := Slot(key, v)]
    case None => slots + [Slot(key, v)]
  }

  /** `Map.delete`. */
  function Remove<V>(slots: seq<Slot<V>>, key: string): (r: seq<Slot<V>>)
    ensures IndexOf(slots, key).Some? ==> |r| == |slots| - 1
    ensures IndexOf(slots, key).None? ==> r == slots
  {
    match IndexOf(slots, key)
    case None => slots
    case Some(i) => slots[..i] + slots[i + 1..]
  }

  /** `Array.from(map.keys())`. */
  function KeysOf<V>(slots: seq<Slot<V>>): (r: seq<string>)
    ensures |r| == |slots| && forall i :: 0 <= i < |r| ==> r[i] == slots[i].key
  {
    seq(|slots|, i requires 0 <= i < |slots| => slots[i].key)
  }

  lemma IndexOfFirst<V>(slots: seq<Slot<V>>, key: string, i: nat)
    requires i < |slots| && slots[i].key == key
    requires forall j :: 0 <= j < i ==> slots[j].key != key
    ensures IndexOf(slots, key) == Some(i)
  {
  }

  /** After `set`, looking the key up finds the entry just stored. */
  lemma PutFinds<V>(slots: seq<Slot<V>>, key: string, v: V)
    ensures IndexOf(Put(slots, key, v), key).Some?
    ensures Put(slots, key, v)[IndexOf(Put(slots, key, v), key).value] == Slot(key, v)
  {
    var r := Put(slots, key, v);
    match IndexOf(slots, key)
    case Some(i) =>
      IndexOfFirst(r, key, i);
    case None =>
      IndexOfFirst(r, key, |slots|);
  }

  /** `set` of a key not yet present appends it. */
  lemma PutNew<V>(slots: seq<Slot<V>>, key: string, v: V)
    requires forall j :: 0 <= j < |slots| ==> slots[j].key != key
    ensures Put(slots, key, v) == slots + [Slot(key, v)]
  {
  }

  /** `delete` of the first key drops the first entry. */
  lemma RemoveFirst<V>(slots: seq<Slot<V>>)
    requires slots != []
    ensures Remove(slots, slots[0].key) == slots[1..]
  {
    assert IndexOf(slots, slots[0].key) == Some(0);
  }

  lemma PutKeepsDistinct<V>(slots: seq<Slot<V>>, key: string, v: V)
    requires DistinctKeys(slots)
    ensures DistinctKeys(Put(slots, key, v))
  {
  }

  /** After `set`, the key maps to the new value and every other key keeps its value. */
  lemma PutThenGet<V>(slots: seq<Slot<V>>, key: string, v: V, other: string)
    requires DistinctKeys(slots)
    ensures DistinctKeys(Put(slots, key, v))
    ensures var r := Put(slots, key, v);
      IndexOf(r, key).Some? && r[IndexOf(r, key).value].val == v
    ensures other != key ==> var r := Put(slots, key, v);
      (IndexOf(r, other).Some? <==> IndexOf(slots, other).Some?)
      && (IndexOf(r, other).Some? ==> r[IndexOf(r, other).value] == slots[IndexOf(slots, other).value])
  {
    PutKeepsDistinct(slots, key, v);
    PutFinds(slots, key, v);
    if other != key {
      PutOther(slots, key, v, other);
    }
  }

  /** `set` of one key leaves the lookup of any other key as it was. */
  lemma PutOther<V>(slots: seq<Slot<V>>, key: string, v: V, other: string)
    requires other != key
    ensures var r := Put(slots, key, v);
      (IndexOf(r, other).Some? <==> IndexOf(slots, other).Some?)
      && (IndexOf(r, other).Some? ==> r[IndexOf(r, other).value] == slots[IndexOf(slots, other).value])
  {
    var r := Put(slots, key, v);
    if IndexOf(slots, other).Some? {
      IndexOfFirst(r, other, IndexOf(slots, other).value);
    }
  }

  /** After `delete` the key is gone, every other entry stays, and order is kept. */
  lemma RemoveDropsKey<V>(slots: seq<Slot<V>>, key: string)
    requires DistinctKeys(slots)
    ensures DistinctKeys(Remove(slots, key))
    ensures IndexOf(Remove(slots, key), key).None?
    ensures forall i :: 0 <= i < |slots| && slots[i].key != key ==> slots[i] in Remove(slots, key)
    ensures forall i :: 0 <= i < |Remove(slots, key)| ==> Remove(slots, key)[i] in slots
  {
    var r := Remove(slots, key);
    if IndexOf(slots, key).Some? {
      var i := IndexOf(slots, key).value;
      assert r == slots[..i] + slots[i + 1..];
      forall a, b | 0 <= a < b < |r|
        ensures r[a].key != r[b].key
      {
        var a' := if a < i then a else a + 1;
        var b' := if b < i then b else b + 1;
        assert r[a] == slots[a'] && r[b] == slots[b'];
      }
      forall j | 0 <= j < |r|
        ensures r[j].key != key && r[j] in slots
      {
        var j' := if j < i then j else j + 1;
        assert r[j] == slots[j'];
      }
      forall j | 0 <= j < |slots| && slots[j].key != key
        ensures slots[j] in r
      {
        if j < i {
          assert r[j] == slots[j];
        } else {
          assert r[j - 1] == slots[j];
        }
      }
    }
  }

  /** After `delete`, every other key is present exactly when it was, with the same value. */
  lemma RemoveThenGet<V>(slots: seq<Slot<V>>, key: string, other: string)
    requires DistinctKeys(slots) && other != key
    ensures var r := Remove(slots, key);
      && (IndexOf(r, other).Some? <==> IndexOf(slots, other).Some?)
      && (IndexOf(r, other).Some? ==> r[IndexOf(r, other).value] == slots[IndexOf(slots, other).value])
  {
    RemoveDropsKey(slots, key);
    var r := Remove(slots, key);
    if IndexOf(slots, other).Some? {
      var j := IndexOf(slots, other).value;
      var k :| 0 <= k < |r| && r[k] == slots[j];
      IndexOfFirst(r, other, k);
    }
    if IndexOf(r, other).Some? {
      var k := IndexOf(r, other).value;
      var j :| 0 <= j < |slots| && slots[j] == r[k];
      IndexOfFirst(slots, other, j);
    }
  }

  /** The entries `keep` accepts, in order: what a loop deleting the others while iterating leaves. */
  function Filter<V>(slots: seq<Slot<V>>, keep: Slot<V> -> bool): (r: seq<Slot<V>>)
    ensures |r| <= |slots|
    ensures forall i :: 0 <= i < |r| ==> r[i] in slots && keep(r[i])
    ensures forall i :: 0 <= i < |slots| && keep(slots[i]) ==> slots[i] in r
  {
    if slots == [] then []
    else
      var last := slots[|slots| - 1];
      assert slots == slots[..|slots| - 1] + [last];
      Filter(slots[..|slots| - 1], keep) + (if keep(last) then [last] else [])
  }

  lemma {:induction false} FilterKeepsDistinct<V>(slots: seq<Slot<V>>, keep: Slot<V> -> bool)
    requires DistinctKeys(slots)
    ensures DistinctKeys(Filter(slots, keep))
  {
    if slots != [] {
      var init := slots[..|slots| - 1];
      var last := slots[|slots| - 1];
      FilterKeepsDistinct(init, keep);
      var fi := Filter(init, keep);
      if keep(last) {
        forall k | 0 <= k < |fi|
          ensures fi[k].key != last.key
        {
          var j :| 0 <= j < |init| && init[j] == fi[k];
          assert slots[j] == init[j];
        }
      }
    }
  }

  /** `map.get(key) || 0` for a map of numbers. */
  function Get0(slots: seq<Slot<int>>, key: string): int {
    match IndexOf(slots, key)
    case Some(i) => slots[i].val
    case None => 0
  }

  /** `map.set(key, (map.get(key) || 0) + amount)`. */
  function AddTo(slots: seq<Slot<int>>, key: string, amount: int): seq<Slot<int>> {
    Put(slots, key, Get0(slots, key) + amount)
  }

  /** Adding to one key makes it present and raises its total; every other key is untouched. */
  lemma AddToGet(slots: seq<Slot<int>>, key: string, amount: int, other: string)
    requires DistinctKeys(slots)
    ensures DistinctKeys(AddTo(slots, key, amount))
    ensures IndexOf(AddTo(slots, key, amount), other).Some? <==> other == key || IndexOf(slots, other).Some?
    ensures Get0(AddTo(slots, key, amount), other) == Get0(slots, other) + (if other == key then amount else 0)
  {
    PutThenGet(slots, key, Get0(slots, key) + amount, other);
  }

  /** The entries in descending order of `rank` of their values. */
  predicate SortedBy<V>(s: seq<Slot<V>>, rank: V -> real) {
    forall i, j :: 0 <= i < j < |s| ==> rank(s[i].val) >= rank(s[j].val)
  }

  /** Inserts `x` after every entry whose rank is at least its own. */
  function InsertBy<V(==)>(s: seq<Slot<V>>, x: Slot<V>, rank: V -> real): (r: seq<Slot<V>>)
    requires SortedBy(s, rank)
    ensures |r| == |s| + 1 && multiset(r) == multiset(s) + multiset{x} && SortedBy(r, rank)
    ensures r[0] == x || (|s| > 0 && r[0] == s[0])
  {
    if s == [] then [x]
    else if rank(s[0].val) < rank(x.val) then
      ConsSortedBy(x, s, rank);
      [x] + s
    else
      var t := InsertBy(s[1..], x, rank);
      assert s == [s[0]] + s[1..];
      ConsSortedBy(s[0], t, rank);
      [s[0]] + t
  }

  /** An entry ranked no lower than the head of a sorted sequence can go in front of it. */
  lemma ConsSortedBy<V>(a: Slot<V>, t: seq<Slot<V>>, rank: V -> real)
    requires SortedBy(t, rank) && (t == [] || rank(t[0].val) <= rank(a.val))
    ensures SortedBy([a] + t, rank)
  {
    var r := [a] + t;
    forall i, j | 0 <= i < j < |r|
      ensures rank(r[i].val) >= rank(r[j].val)
    {
      if i == 0 {
        assert r[j] == t[j - 1];
      } else {
        assert r[i] == t[i - 1] && r[j] == t[j - 1];
      }
    }
  }

  /**
   * `entries.sort((a, b) => rank(b) - rank(a))`: a stable sort by descending rank, as the
   * engine's sort is stable.
   */
  function SortBy<V(==)>(s: seq<Slot<V>>, rank: V -> real): (r: seq<Slot<V>>)
    ensures |r| == |s| && multiset(r) == multiset(s) && SortedBy(r, rank)
  {
    if s == [] then []
    else
      assert s == s[..|s| - 1] + [s[|s| - 1]];
      InsertBy(SortBy(s[..|s| - 1], rank), s[|s| - 1], rank)
  }
}

/**
 * `LRUCache`: a bounded map that forgets its least recently used key.
 * Reading a key (`get`, which refreshes) and writing one (`insert`) both
 * make it the most recent; an insert that takes the map over its
 * capacity drops the least recent key. The linked hash map underneath
 * is represented by its key order (least recent first) and its
 * key-to-value map; re-inserting a present key updates the value and
 * moves the key to the back, as the linked hash map does.
 */
module LruCache {

  import opened Results

  predicate Distinct<K(==)>(s: seq<K>) {
    forall i, j :: 0 <= i < j < |s| ==> s[i] != s[j]
  }

  /** `s` with `k` taken out, the rest in order. */
  function Without<K(==,!new)>(s: seq<K>, k: K): seq<K>
  {
    if s == [] then []
    else if s[0] == k then Without(s[1..], k)
    else [s[0]] + Without(s[1..], k)
  }

  /** Taking a key out of the order keeps every other key, keeps the keys
      distinct, and shortens the order by one exactly when the key was
      there. */
  lemma {:induction false} WithoutFacts<K(!new)>(s: seq<K>, k: K)
    ensures forall x :: x in Without(s, k) <==> x in s && x != k
    ensures Distinct(s) ==> Distinct(Without(s, k))
    ensures Distinct(s) && k in s ==> |Without(s, k)| == |s| - 1
    ensures k !in s ==> Without(s, k) == s
  {
    if s != [] {
      WithoutFacts(s[1..], k);
      var rest := Without(s[1..], k);
      if s[0] != k {
        var r := [s[0]] + rest;
        assert Distinct(s) ==> s[0] !in s[1..];
        assert forall j :: 1 <= j < |r| ==> r[j] == rest[j - 1] && r[j] in rest;
      }
      assert s == [s[0]] + s[1..];
    }
  }

  /** The key order after `k` is read or written: `k` moves to the back. */
  function Refreshed<K(==,!new)>(order: seq<K>, k: K): seq<K>
  {
    Without(order, k) + [k]
  }

  lemma RefreshedFacts<K(!new)>(order: seq<K>, k: K)
    ensures var r := Refreshed(order, k);
      && |r| > 0 && r[|r| - 1] == k
      && (forall x :: x in r <==> x in order || x == k)
      && (Distinct(order) ==> Distinct(r))
      && (Distinct(order) && k in order ==> |r| == |order|)
      && (k !in order ==> r == order + [k])
      && (Distinct(order) && |order| > 0 && k == order[0] ==> r == order[1..] + [k])
  {
    WithoutFacts(order, k);
    if |order| > 0 && k == order[0] {
      WithoutFacts(order[1..], k);
      if Distinct(order) {
        assert k !in order[1..];
      }
    }
  }

  /** Whether an insert of `k` takes the map over `capacity`. */
  predicate Overflows<K(==,!new)>(order: seq<K>, k: K, capacity: nat) {
    |Refreshed(order, k)| > capacity
  }

  /** The key order after inserting `k`. */
  function InsertedOrder<K(==,!new)>(order: seq<K>, k: K, capacity: nat): seq<K>
  {
    var r := Refreshed(order, k);
    if |r| > capacity then r[1..] else r
  }

  class LRUCache<K(==,!new), V> {
    const capacity: nat
    var order: seq<K>
    var entries: map<K, V>

    ghost predicate Valid()
      reads this
    {
      Distinct(order) && (forall k :: k in entries <==> k in order) && |order| <= capacity
    }

    constructor (capacity: nat)
      ensures Valid() && this.capacity == capacity && order == [] && entries == map[]
    {
      this.capacity := capacity;
      order := [];
      entries := map[];
    }

    /** `get` (get_refresh): the value of a present key, which becomes
        the most recent; nothing changes for an absent key. */
    method Get(k: K) returns (r: Option<V>)
      requires Valid()
      modifies this
      ensures Valid() && entries == old(entries)
      ensures r == if k in old(entries) then Some(old(entries)[k]) else None
      ensures order == if k in old(entries) then Refreshed(old(order), k) else old(order)
    {
      RefreshedFacts(order, k);
      if k in entries {
        r := Some(entries[k]);
        order := Refreshed(order, k);
      } else {
        r := None;
      }
    }

    /** `insert`: `k` maps to `v` and is the most recent; if that makes
        one key too many, the least recent key is dropped. */
    method Insert(k: K, v: V)
      requires Valid()
      modifies this
      ensures Valid()
      ensures order == InsertedOrder(old(order), k, capacity)
      ensures entries ==
        if Overflows(old(order), k, capacity) then old(entries)[k := v] - {Refreshed(old(order), k)[0]}
        else old(entries)[k := v]
      ensures capacity > 0 ==> k in entries && entries[k] == v
      ensures forall x :: x in entries ==> x == k || (x in old(entries) && entries[x] == old(entries)[x])
    {
      RefreshedFacts(order, k);
      if capacity > 0 {
        InsertKeepsKey(order, k, capacity);
      }
      var r := Refreshed(order, k);
      if |r| > capacity {
        var lru := r[0];
        assert forall i :: 1 <= i < |r| ==> r[i] != lru;
        order := r[1..];
        entries := entries[k := v] - {lru};
      } else {
        order := r;
        entries := entries[k := v];
      }
    }
  }

  /** The key just inserted is always kept unless the capacity is 0. */
  lemma {:induction false} InsertKeepsKey<K(!new)>(order: seq<K>, k: K, capacity: nat)
    requires capacity > 0 && |order| <= capacity && Distinct(order)
    ensures k in InsertedOrder(order, k, capacity)
  {
    RefreshedFacts(order, k);
    var r := Refreshed(order, k);
    if |r| > capacity {
      assert r[|r| - 1] == r[1..][|r| - 2];
    }
  }

  /** Inserting a new key into a full cache drops exactly the least
      recently used key; re-inserting a present key drops nothing. */
  lemma {:induction false} InsertEvictsLeastRecent<K(!new)>(order: seq<K>, k: K, capacity: nat)
    requires Distinct(order) && |order| <= capacity
    ensures k !in order && |order| == capacity ==> Overflows(order, k, capacity) && Refreshed(order, k)[0] == (if capacity == 0 then k else order[0])
    ensures k !in order && |order| < capacity ==> !Overflows(order, k, capacity)
    ensures k in order ==> !Overflows(order, k, capacity)
  {
    RefreshedFacts(order, k);
  }

  /** The LRU test: capacity 3, inserts 0..3, reads, insert 4, a read
      that refreshes 2, insert 5. */
  method LruExample() returns (afterFirst: seq<Option<int>>, afterSecond: seq<Option<int>>, afterThird: seq<Option<int>>)
    ensures afterFirst == [None, Some(1), Some(2), Some(3)]
    ensures afterSecond == [None, None, Some(2), Some(3), Some(4)]
    ensures afterThird == [None, None, Some(2), None, Some(4), Some(5)]
  {
    var c := new LRUCache<int, int>(3);
    afterFirst := ExamplePhase1(c);
    afterSecond := ExamplePhase2(c);
    afterThird := ExamplePhase3(c);
  }

  method ExamplePhase1(c: LRUCache<int, int>) returns (r: seq<Option<int>>)
    requires c.Valid() && c.capacity == 3 && c.order == []
    modifies c
    ensures c.Valid() && c.order == [1, 2, 3] && c.entries == map[1 := 1, 2 := 2, 3 := 3]
    ensures r == [None, Some(1), Some(2), Some(3)]
  {
    InsertNew(c, 0, 0);
    InsertNew(c, 1, 1);
    InsertNew(c, 2, 2);
    assert c.order == [0, 1, 2] && c.entries == map[0 := 0, 1 := 1, 2 := 2];
    InsertIntoFull(c, 3, 3);
    assert c.order == [1, 2, 3];
    assert c.entries == map[1 := 1, 2 := 2, 3 := 3];
    r := ExampleReads1(c);
  }

  method ExampleReads1(c: LRUCache<int, int>) returns (r: seq<Option<int>>)
    requires c.Valid() && c.order == [1, 2, 3] && c.entries == map[1 := 1, 2 := 2, 3 := 3]
    modifies c
    ensures c.Valid() && c.order == [1, 2, 3] && c.entries == map[1 := 1, 2 := 2, 3 := 3]
    ensures r == [None, Some(1), Some(2), Some(3)]
  {
    var g0 := c.Get(0);
    var rest := ReadInOrder(c);
    r := [g0] + rest;
  }

  method ExamplePhase2(c: LRUCache<int, int>) returns (r: seq<Option<int>>)
    requires c.Valid() && c.capacity == 3 && c.order == [1, 2, 3] && c.entries == map[1 := 1, 2 := 2, 3 := 3]
    modifies c
    ensures c.Valid() && c.order == [2, 3, 4] && c.entries == map[2 := 2, 3 := 3, 4 := 4]
    ensures r == [None, None, Some(2), Some(3), Some(4)]
  {
    SecondInsert(c);
    var g0 := c.Get(0);
    var g1 := c.Get(1);
    var rest := ReadInOrder(c);
    r := [g0, g1] + rest;
  }

  method ExamplePhase3(c: LRUCache<int, int>) returns (r: seq<Option<int>>)
    requires c.Valid() && c.capacity == 3 && c.order == [2, 3, 4] && c.entries == map[2 := 2, 3 := 3, 4 := 4]
    modifies c
    ensures r == [None, None, Some(2), None, Some(4), Some(5)]
  {
    RefreshThenInsert(c);
    r := ReadKeys(c, 6);
    assert 3 !in c.entries && c.entries[2] == 2 && c.entries[4] == 4 && c.entries[5] == 5;
  }

  method SecondInsert(c: LRUCache<int, int>)
    requires c.Valid() && c.capacity == 3 && c.order == [1, 2, 3] && c.entries == map[1 := 1, 2 := 2, 3 := 3]
    modifies c
    ensures c.Valid() && c.order == [2, 3, 4] && c.entries == map[2 := 2, 3 := 3, 4 := 4]
  {
    assert [1, 2, 3][1..] + [4] == [2, 3, 4];
    assert map[1 := 1, 2 := 2, 3 := 3][4 := 4] - {1} == map[2 := 2, 3 := 3, 4 := 4];
    InsertIntoFull(c, 4, 4);
  }

  method RefreshThenInsert(c: LRUCache<int, int>)
    requires c.Valid() && c.capacity == 3 && c.order == [2, 3, 4] && c.entries == map[2 := 2, 3 := 3, 4 := 4]
    modifies c
    ensures c.Valid() && c.entries == map[2 := 2, 4 := 4, 5 := 5]
  {
    var _ := GetLeastRecent(c);
    assert c.order == [3, 4, 2];
    assert map[2 := 2, 3 := 3, 4 := 4][5 := 5] - {3} == map[2 := 2, 4 := 4, 5 := 5];
    InsertIntoFull(c, 5, 5);
  }

  /** A read of the least recently used key, spelled out. */
  method GetLeastRecent<K(==,!new), V>(c: LRUCache<K, V>) returns (r: Option<V>)
    requires c.Valid() && |c.order| > 0
    modifies c
    ensures c.Valid() && c.entries == old(c.entries)
    ensures r == Some(old(c.entries)[old(c.order)[0]])
    ensures c.order == old(c.order)[1..] + [old(c.order)[0]]
  {
    var k := c.order[0];
    RefreshedFacts(c.order, k);
    r := c.Get(k);
  }

  /** An insert of a new key into a full cache, spelled out. */
  method InsertIntoFull<K(==,!new), V>(c: LRUCache<K, V>, k: K, v: V)
    requires c.Valid() && k !in c.order && |c.order| == c.capacity > 0
    modifies c
    ensures c.Valid() && c.order == old(c.order)[1..] + [k]
    ensures c.entries == old(c.entries)[k := v] - {old(c.order)[0]}
  {
    RefreshedFacts(c.order, k);
    c.Insert(k, v);
  }
  /** An insert of a new key into a cache with room, spelled out. */
  method InsertNew<K(==,!new), V>(c: LRUCache<K, V>, k: K, v: V)
    requires c.Valid() && k !in c.order && |c.order| < c.capacity
    modifies c
    ensures c.Valid() && c.order == old(c.order) + [k]
    ensures c.entries == old(c.entries)[k := v]
  {
    RefreshedFacts(c.order, k);
    c.Insert(k, v);
  }
  /** Reads every cached key from the least to the most recent: each
      read moves the key to the back, so the order comes round again. */
  method ReadInOrder<K(==,!new), V>(c: LRUCache<K, V>) returns (r: seq<Option<V>>)
    requires c.Valid()
    modifies c
    ensures c.Valid() && c.entries == old(c.entries) && c.order == old(c.order)
    ensures |r| == |c.order| && forall i :: 0 <= i < |r| ==> r[i] == Some(c.entries[c.order[i]])
  {
    var o := c.order;
    r := [];
    for i := 0 to |o|
      invariant c.Valid() && c.entries == old(c.entries)
      invariant c.order == o[i..] + o[..i]
      invariant |r| == i && forall j :: 0 <= j < i ==> r[j] == Some(c.entries[o[j]])
    {
      var g := GetLeastRecent(c);
      assert o[i..] == [o[i]] + o[i + 1..];
      assert o[..i + 1] == o[..i] + [o[i]];
      r := r + [g];
    }
    assert o[|o|..] + o[..|o|] == o;
  }
  /** Reads keys 0..n-1 in turn. */
  method ReadKeys<V>(c: LRUCache<int, V>, n: nat) returns (r: seq<Option<V>>)
    requires c.Valid()
    modifies c
    ensures c.Valid() && c.entries == old(c.entries)
    ensures |r| == n && forall i :: 0 <= i < n ==> r[i] == if i in c.entries then Some(c.entries[i]) else None
  {
    r := [];
    for i := 0 to n
      invariant c.Valid() && c.entries == old(c.entries)
      invariant |r| == i && forall j :: 0 <= j < i ==> r[j] == if j in c.entries then Some(c.entries[j]) else None
    {
      var g := c.Get(i);
      r := r + [g];
    }
  }
}

/**
 * `ComplementWithLastValue`: fills the gaps of a sparse indicator with
 * the last value before them. A read looks at the queried bar and then
 * up to `max_loop` bars back, taking the first bar that is either in its
 * LRU cache (whatever the cache holds, `None` included) or has a value
 * in the source; the answer is then cached for the queried bar. Bars
 * are indices of the granularity; `t - 1` is the bar before `t`.
 */
module Complement {

  import opened Results
  import opened LruCache

  /** The answer of a read of `t` against the cache contents `e`, allowing
      `k` more steps back. */
  function Search<V>(e: map<int, Option<V>>, source: int -> Option<V>, t: int, k: nat): Option<V>
    decreases k
  {
    if t in e then e[t]
    else if source(t).Some? then source(t)
    else if k == 0 then None
    else Search(e, source, t - 1, k - 1)
  }

  /** The last value of the source at or before `t`, counting from `lo`. */
  function LastFrom<V>(source: int -> Option<V>, lo: int, t: int): Option<V>
    decreases t - lo
  {
    if t < lo then None
    else if source(t).Some? then source(t)
    else LastFrom(source, lo, t - 1)
  }

  /** The value `Search` finds is a value of the source at one of the
      bars it looked at, or a cached answer at one of them. */
  lemma {:induction false} SearchFindsSourceOrCache<V>(e: map<int, Option<V>>, source: int -> Option<V>, t: int, k: nat)
    ensures var r := Search(e, source, t, k);
      r.None? || exists j :: t - k <= j <= t && ((j in e && e[j] == r) || (j !in e && source(j) == r))
    decreases k
  {
    var r := Search(e, source, t, k);
    if t in e {
      assert e[t] == r;
    } else if source(t).Some? {
      assert source(t) == r;
    } else if k > 0 {
      SearchFindsSourceOrCache(e, source, t - 1, k - 1);
    }
  }

  /** Below the first bar of a source that is empty there, with nothing
      cached down there, a read finds nothing. */
  lemma {:induction false} SearchBelowStart<V>(e: map<int, Option<V>>, source: int -> Option<V>, lo: int, t: int, k: nat)
    requires t < lo
    requires forall j :: j < lo ==> source(j).None?
    requires forall j :: j in e ==> j >= lo
    ensures Search(e, source, t, k) == None
    decreases k
  {
    if k > 0 {
      SearchBelowStart(e, source, lo, t - 1, k - 1);
    }
  }

  /** The cache chain: once the previous bar's answer is the last value
      up to it, the answer for the next bar is the last value up to that
      bar, however far back the value lies. */
  lemma ChainStep<V>(e: map<int, Option<V>>, source: int -> Option<V>, lo: int, t: int, k: nat)
    requires k >= 1 && t !in e && lo <= t
    requires t - 1 in e && e[t - 1] == LastFrom(source, lo, t - 1)
    ensures Search(e, source, t, k) == LastFrom(source, lo, t)
  {
  }

  /** The bar at which the back-search from `t` stops: the first bar,
      going down at most `k` steps, that is cached or has a source value;
      none when no bar in reach does. */
  function StopBar<V>(e: map<int, Option<V>>, source: int -> Option<V>, t: int, k: nat): (b: Option<int>)
    ensures b.Some? ==> t - k <= b.value <= t && (b.value in e || source(b.value).Some?)
    decreases k
  {
    if t in e || source(t).Some? then Some(t)
    else if k == 0 then None
    else StopBar(e, source, t - 1, k - 1)
  }

  /** The back-search answers what it finds at its stopping bar: the
      cached answer there if there is one, otherwise the source's value. */
  lemma {:induction false} SearchAtStopBar<V>(e: map<int, Option<V>>, source: int -> Option<V>, t: int, k: nat)
    ensures Search(e, source, t, k) ==
      match StopBar(e, source, t, k)
      case None => None
      case Some(b) => if b in e then e[b] else source(b)
    decreases k
  {
    if t !in e && source(t).None? && k > 0 {
      SearchAtStopBar(e, source, t - 1, k - 1);
    }
  }

  /** The cache's key order after the back-search: the stopping bar is
      read (a cached bar is refreshed, a source value is inserted), and
      nothing is touched when the search finds nothing. */
  function OrderAfterSearch<V>(e: map<int, Option<V>>, order: seq<int>, source: int -> Option<V>,
      t: int, k: nat, capacity: nat): seq<int>
  {
    match StopBar(e, source, t, k)
    case None => order
    case Some(b) => if b in e then Refreshed(order, b) else InsertedOrder(order, b, capacity)
  }

  class ComplementWithLastValue<V> {
    const maxLoop: nat
    const cache: LRUCache<int, Option<V>>

    ghost predicate Valid()
      reads this, cache
    {
      cache.Valid()
    }

    constructor (maxLoop: nat, capacity: nat)
      ensures Valid() && fresh(cache) && this.maxLoop == maxLoop
      ensures cache.capacity == capacity && cache.entries == map[]
    {
      this.maxLoop := maxLoop;
      cache := new LRUCache(capacity);
    }

    /** `get_from_cache`: the cached answer for `t` if there is one,
        which the read makes the most recent key; otherwise the source's
        value, which is then cached; otherwise nothing, and the cache is
        left as it was. */
    method GetFromCache(source: int -> Option<V>, t: int) returns (m: Option<Option<V>>)
      requires Valid()
      modifies cache
      ensures Valid()
      ensures t in old(cache.entries) ==> m == Some(old(cache.entries)[t]) && cache.entries == old(cache.entries)
      ensures t in old(cache.entries) ==> cache.order == Refreshed(old(cache.order), t)
      ensures t !in old(cache.entries) && source(t).Some? ==>
        m == Some(source(t)) && cache.order == InsertedOrder(old(cache.order), t, cache.capacity)
      ensures t !in old(cache.entries) && source(t).None? ==> m == None && cache.entries == old(cache.entries) && cache.order == old(cache.order)
      ensures t !in old(cache.entries) && source(t).Some? && cache.capacity > 0 ==>
        t in cache.entries && cache.entries[t] == source(t)
      ensures forall j :: j in cache.entries && j != t ==> j in old(cache.entries) && cache.entries[j] == old(cache.entries)[j]
    {
      var maybe := cache.Get(t);
      match maybe {
        case Some(v) =>
          m := Some(v);
        case None =>
          var s := source(t);
          if s.Some? {
            cache.Insert(t, s);
            m := Some(s);
          } else {
            m := None;
          }
      }
    }

    /** The loop of `value`: reads `time`, `time - 1`, ... through
        `get_from_cache` until one answers or `max_loop` steps back have
        been taken. Only the bar `t` that answered from the source can
        have been added to the cache; `t` is the bar the search stopped at. */
    method SearchBack(source: int -> Option<V>, time: int) returns (maybe: Option<Option<V>>, t: int)
      requires Valid()
      modifies cache
      ensures Valid()
      ensures maybe.Some? ==> maybe.value == Search(old(cache.entries), source, time, maxLoop)
      ensures maybe.None? ==> Search(old(cache.entries), source, time, maxLoop) == None && cache.entries == old(cache.entries)
      ensures time - maxLoop <= t <= time
      ensures maybe.Some? <==> StopBar(old(cache.entries), source, time, maxLoop) == Some(t)
      ensures cache.order == OrderAfterSearch(old(cache.entries), old(cache.order), source, time, maxLoop, cache.capacity)
      ensures forall j :: j in cache.entries ==>
        (j in old(cache.entries) && cache.entries[j] == old(cache.entries)[j]) ||
        (j !in old(cache.entries) && j == t && source(j).Some? && cache.entries[j] == source(j))
    {
      ghost var e0 := cache.entries;
      ghost var o0 := cache.order;
      var loopCount: nat := 0;
      t := time;
      maybe := GetFromCache(source, t);
      while maybe.None? && loopCount < maxLoop
        invariant Valid()
        invariant loopCount <= maxLoop && t == time - loopCount
        invariant maybe.None? ==> cache.entries == e0
        invariant maybe.Some? ==> maybe.value == (if t in e0 then e0[t] else source(t))
        invariant maybe.None? ==> cache.order == o0
        invariant StopBar(e0, source, time, maxLoop) ==
          if maybe.Some? then Some(t)
          else if loopCount == maxLoop then None
          else StopBar(e0, source, t - 1, maxLoop - loopCount - 1)
        invariant maybe.Some? ==> cache.order == (if t in e0 then Refreshed(o0, t) else InsertedOrder(o0, t, cache.capacity))
        invariant forall j :: j in cache.entries ==>
          (j in e0 && cache.entries[j] == e0[j]) || (j !in e0 && j == t && source(j).Some? && cache.entries[j] == source(j))
      {
        loopCount := loopCount + 1;
        t := t - 1;
        assert StopBar(e0, source, t, maxLoop - loopCount) ==
          if t in e0 || source(t).Some? then Some(t)
          else if loopCount == maxLoop then None
          else StopBar(e0, source, t - 1, maxLoop - loopCount - 1);
        maybe := GetFromCache(source, t);
      }
      SearchAtStopBar(e0, source, time, maxLoop);
    }

    /** `value`: the answer of the backward search against the cache as
        it was before the read; it is cached for the queried bar. */
    method Value(source: int -> Option<V>, time: int) returns (r: Option<V>)
      requires Valid()
      modifies cache
      ensures Valid()
      ensures r == Search(old(cache.entries), source, time, maxLoop)
      ensures cache.capacity > 0 ==> time in cache.entries && cache.entries[time] == r
      ensures cache.order == InsertedOrder(OrderAfterSearch(old(cache.entries), old(cache.order), source, time, maxLoop, cache.capacity), time, cache.capacity)
      ensures forall j :: j in cache.entries ==> j in old(cache.entries) || j == time || (time - maxLoop <= j < time && source(j).Some?)
      ensures forall j :: j in cache.entries && j != time ==>
        (j in old(cache.entries) && cache.entries[j] == old(cache.entries)[j]) ||
        (j !in old(cache.entries) && time - maxLoop <= j < time && source(j).Some? && cache.entries[j] == source(j))
    {
      var maybe;
      var t;
      maybe, t := SearchBack(source, time);
      ghost var before := cache.order;
      r := if maybe.Some? then maybe.value else None;
      cache.Insert(time, r);
      if cache.capacity > 0 {
        InsertKeepsKey(before, time, cache.capacity);
      }
    }
  }
  /** One read of the in-order scan below: with the previous bar's
      answer cached and nothing cached from the queried bar on, the read
      answers the last value up to the bar and caches it there. */
  method ReadNextBar<V>(c: ComplementWithLastValue<V>, source: int -> Option<V>, lo: int, i: nat) returns (r: Option<V>)
    requires c.Valid() && c.maxLoop >= 1 && c.cache.capacity >= 1
    requires forall j :: j < lo ==> source(j).None?
    requires forall j :: j in c.cache.entries ==> lo <= j < lo + i
    requires i > 0 ==> lo + i - 1 in c.cache.entries && c.cache.entries[lo + i - 1] == LastFrom(source, lo, lo + i - 1)
    modifies c.cache
    ensures c.Valid()
    ensures r == LastFrom(source, lo, lo + i)
    ensures forall j :: j in c.cache.entries ==> lo <= j < lo + i + 1
    ensures lo + i in c.cache.entries && c.cache.entries[lo + i] == r
  {
    var t := lo + i;
    if i == 0 {
      if source(t).None? {
        SearchBelowStart(c.cache.entries, source, lo, t - 1, c.maxLoop - 1);
      }
    } else {
      ChainStep(c.cache.entries, source, lo, t, c.maxLoop);
    }
    r := c.Value(source, t);
  }

  /** Reading bars `lo`, `lo + 1`, ... in turn from an empty cache, with
      at least one step back and room for one entry, answers the last
      value of the source up to each bar: each answer is found one bar
      back through the cache, so the gap filled is not bounded by
      `max_loop`. */
  method ReadBarsInOrder<V>(c: ComplementWithLastValue<V>, source: int -> Option<V>, lo: int, n: nat) returns (rs: seq<Option<V>>)
    requires c.Valid() && c.cache.entries == map[] && c.maxLoop >= 1 && c.cache.capacity >= 1
    requires forall j :: j < lo ==> source(j).None?
    modifies c.cache
    ensures |rs| == n && forall i :: 0 <= i < n ==> rs[i] == LastFrom(source, lo, lo + i)
  {
    rs := [];
    for i := 0 to n
      invariant c.Valid() && |rs| == i
      invariant forall j :: 0 <= j < i ==> rs[j] == LastFrom(source, lo, lo + j)
      invariant forall j :: j in c.cache.entries ==> lo <= j < lo + i
      invariant i > 0 ==> lo + i - 1 in c.cache.entries && c.cache.entries[lo + i - 1] == LastFrom(source, lo, lo + i - 1)
    {
      var r := ReadNextBar(c, source, lo, i);
      rs := rs + [r];
    }
  }

  /** A sparse source read from a hash map, `None` where nothing is
      stored. */
  function HashSource<V>(m: map<int, V>): int -> Option<V>
  {
    i => if i in m then Some(m[i]) else None
  }

  /** The first complement test: values at bars 3, 4 and 6, ten steps
      back allowed, bars 0..9 read in turn. */
  method ComplementExample() returns (rs: seq<Option<real>>)
    ensures rs == [None, None, None, Some(1.0), Some(2.0), Some(2.0), Some(3.0), Some(3.0), Some(3.0), Some(3.0)]
  {
    var source := HashSource(map[3 := 1.0, 4 := 2.0, 6 := 3.0]);
    var c := new ComplementWithLastValue(10, 10);
    rs := ReadBarsInOrder(c, source, 0, 10);
    assert LastFrom(source, 0, -1) == None;
    assert LastFrom(source, 0, 0) == None;
    assert LastFrom(source, 0, 1) == None;
    assert LastFrom(source, 0, 2) == None;
    assert LastFrom(source, 0, 3) == Some(1.0);
    assert LastFrom(source, 0, 4) == Some(2.0);
    assert LastFrom(source, 0, 5) == Some(2.0);
    assert LastFrom(source, 0, 6) == Some(3.0);
    assert LastFrom(source, 0, 7) == Some(3.0);
    assert LastFrom(source, 0, 8) == Some(3.0);
    assert LastFrom(source, 0, 9) == Some(3.0);
    assert rs == [rs[0], rs[1], rs[2], rs[3], rs[4], rs[5], rs[6], rs[7], rs[8], rs[9]];
  }

  /** The cache test: one value at bar 1 and one step back allowed; the
      value still reaches bar 4 through the cached answers. */
  method ComplementCacheExample() returns (rs: seq<Option<real>>)
    ensures rs == [None, Some(1.0), Some(1.0), Some(1.0), Some(1.0)]
  {
    var source := HashSource(map[1 := 1.0]);
    var c := new ComplementWithLastValue(1, 10);
    rs := ReadBarsInOrder(c, source, 0, 5);
    assert LastFrom(source, 0, -1) == None;
    assert LastFrom(source, 0, 0) == None;
    assert LastFrom(source, 0, 1) == Some(1.0);
    assert LastFrom(source, 0, 2) == Some(1.0);
    assert LastFrom(source, 0, 3) == Some(1.0);
    assert LastFrom(source, 0, 4) == Some(1.0);
    assert rs == [rs[0], rs[1], rs[2], rs[3], rs[4]];
  }
}

/**
 * `Ema`: the exponential moving average, computed by a bounded recursion
 * down to a seed indicator `first`, with an LRU cache of the values it
 * has computed. A cached value short-cuts the recursion, so the result
 * at an index depends on what was computed before.
 */
module Ema {

  import opened Results
  import opened LruCache
  import VecIndicator

  /** `calc_alpha`: the smoothing factor `2 / (n + 1)`. */
  function CalcAlpha(nPeriod: nat): (alpha: real)
    ensures 0.0 < alpha <= 2.0
    ensures alpha * (nPeriod as real + 1.0) == 2.0
  {
    2.0 / (nPeriod as real + 1.0)
  }

  /** One step of the recurrence: the previous average moved towards the
      source value by `alpha` of the difference. */
  function Step(prev: real, src: real, alpha: real): real
  {
    prev + (src - prev) * alpha
  }

  /** One step on results: the step from the earlier average to the
      source value, the first non-value handed on. */
  function Advance(prev: Res<real>, src: Res<real>, alpha: real): Res<real>
  {
    MapRes(ZipRes(prev, src), (p: (real, real)) => Step(p.0, p.1, alpha))
  }

  /** What `value_recursive(at, remain)` answers when the cache holds
      `entries` at the call: the seed at depth 0, a cached value as is,
      and otherwise one step from the answer one index back, the first
      non-value (the earlier average's, then the source's) handed on. */
  function EmaOf(entries: map<int, real>, source: int -> Res<real>, first: int -> Res<real>,
                 alpha: real, at: int, remain: nat): Res<real>
    decreases remain
  {
    if remain == 0 then first(at)
    else if at in entries then InRange(entries[at])
    else Advance(EmaOf(entries, source, first, alpha, at - 1, remain - 1), source(at), alpha)
  }

  /** A source and a seed whose only value is `c`, and a cache holding
      only `c`, give only `c` or a non-value. */
  lemma {:induction false} ConstantSourceGivesConstant(entries: map<int, real>, source: int -> Res<real>,
      first: int -> Res<real>, alpha: real, c: real, at: int, remain: nat)
    requires forall i :: source(i).InRange? ==> source(i).v == c
    requires forall i :: first(i).InRange? ==> first(i).v == c
    requires forall k :: k in entries ==> entries[k] == c
    ensures EmaOf(entries, source, first, alpha, at, remain).InRange? ==>
            EmaOf(entries, source, first, alpha, at, remain).v == c
    decreases remain
  {
    if remain > 0 && at !in entries {
      ConstantSourceGivesConstant(entries, source, first, alpha, c, at - 1, remain - 1);
      assert Step(c, c, alpha) == c;
    }
  }

  /** With nothing cached, a recursion that reaches below a seed that is
      out of range there is out of range. */
  lemma {:induction false} EmptyCacheBelowSeed(source: int -> Res<real>, first: int -> Res<real>,
      alpha: real, at: int, remain: nat)
    requires first(at - remain) == OutOfRange
    ensures EmaOf(map[], source, first, alpha, at, remain) == OutOfRange
    decreases remain
  {
    if remain > 0 {
      EmptyCacheBelowSeed(source, first, alpha, at - 1, remain - 1);
    }
  }

  /** The cache `e` grew from `e0` only by indices within `remain` below
      and up to `at`, each holding the average `EmaOf` gives it against
      `e0`; the indices `e0` held keep their values. */
  ghost predicate Faithful(e0: map<int, real>, e: map<int, real>, source: int -> Res<real>,
      first: int -> Res<real>, alpha: real, at: int, remain: nat)
  {
    (forall k :: k in e && k !in e0 ==>
      at - remain < k <= at &&
      EmaOf(e0, source, first, alpha, k, remain - (at - k)) == InRange(e[k])) &&
    (forall k :: k in e && k in e0 ==> e[k] == e0[k])
  }

  /** An unchanged cache is faithful to itself. */
  lemma UnchangedIsFaithful(e0: map<int, real>, source: int -> Res<real>,
      first: int -> Res<real>, alpha: real, at: int, remain: nat)
    ensures Faithful(e0, e0, source, first, alpha, at, remain)
  {
  }

  /** What the deeper recursion cached stays within reach of the call
      one index above it. */
  lemma WidenFaithful(e0: map<int, real>, e1: map<int, real>, source: int -> Res<real>,
      first: int -> Res<real>, alpha: real, at: int, remain: nat)
    requires remain > 0
    requires Faithful(e0, e1, source, first, alpha, at - 1, remain - 1)
    ensures Faithful(e0, e1, source, first, alpha, at, remain)
  {
  }

  /** Caching the fresh value at `at` on top of the entries the deeper
      recursion added keeps every newly cached index faithful to `EmaOf`
      against the entries before the call. */
  lemma NewKeysStayFaithful(e0: map<int, real>, e1: map<int, real>, e2: map<int, real>,
      source: int -> Res<real>, first: int -> Res<real>, alpha: real, at: int, remain: nat, v: real)
    requires remain > 0 && at !in e0
    requires EmaOf(e0, source, first, alpha, at, remain) == InRange(v)
    requires Faithful(e0, e1, source, first, alpha, at - 1, remain - 1)
    requires forall k :: k in e2 ==> k == at || (k in e1 && e2[k] == e1[k])
    requires at in e2 ==> e2[at] == v
    ensures Faithful(e0, e2, source, first, alpha, at, remain)
  {
  }

  class Ema {
    const alpha: real
    const actualPeriod: nat
    const cache: LRUCache<int, real>

    ghost predicate Valid()
      reads this, cache
    {
      cache.Valid()
    }

    /** `Ema::new`, with the recursion depth given directly. */
    constructor (nPeriod: nat, actualPeriod: nat, capacity: nat)
      ensures Valid() && fresh(cache)
      ensures alpha == CalcAlpha(nPeriod) && this.actualPeriod == actualPeriod
      ensures cache.capacity == capacity && cache.entries == map[]
    {
      alpha := CalcAlpha(nPeriod);
      this.actualPeriod := actualPeriod;
      cache := new LRUCache(capacity);
    }

    /** `value_recursive`: answers `EmaOf` against the cache as it was at
        the call; a value computed at depth above 0 is cached at its
        index, and every newly cached index holds the average `EmaOf`
        gives it. The cache grows by at most one key per level, evicts
        nothing while it has room for that many, and leaves the queried
        index, when cached, as its most recent key. */
    method ValueRecursive(source: int -> Res<real>, first: int -> Res<real>, at: int, remain: nat) returns (r: Res<real>)
      requires Valid()
      modifies cache
      ensures Valid()
      ensures r == EmaOf(old(cache.entries), source, first, alpha, at, remain)
      ensures remain > 0 && r.InRange? && cache.capacity > 0 ==> at in cache.entries && cache.entries[at] == r.v
      ensures Faithful(old(cache.entries), cache.entries, source, first, alpha, at, remain)
      ensures |cache.order| <= |old(cache.order)| + remain
      ensures |old(cache.order)| + remain <= cache.capacity ==> forall k :: k in old(cache.entries) ==> k in cache.entries
      ensures remain > 0 && at in cache.entries ==> |cache.order| > 0 && cache.order[|cache.order| - 1] == at
      decreases remain, 1
    {
      if remain == 0 {
        UnchangedIsFaithful(cache.entries, source, first, alpha, at, remain);
        return first(at);
      }
      RefreshedFacts(cache.order, at);
      var cached := cache.Get(at);
      match cached {
        case Some(v) =>
          r := InRange(v);
          UnchangedIsFaithful(cache.entries, source, first, alpha, at, remain);
        case None =>
          r := ComputeMissing(source, first, at, remain);
      }
    }

    /** The miss branch of `value_recursive`: one step from the answer
        one index back, cached at `at` when it is a value. */
    method ComputeMissing(source: int -> Res<real>, first: int -> Res<real>, at: int, remain: nat) returns (r: Res<real>)
      requires Valid() && remain > 0 && at !in cache.entries
      modifies cache
      ensures Valid()
      ensures r == EmaOf(old(cache.entries), source, first, alpha, at, remain)
      ensures r.InRange? && cache.capacity > 0 ==> at in cache.entries && cache.entries[at] == r.v
      ensures Faithful(old(cache.entries), cache.entries, source, first, alpha, at, remain)
      ensures |cache.order| <= |old(cache.order)| + remain
      ensures |old(cache.order)| + remain <= cache.capacity ==> forall k :: k in old(cache.entries) ==> k in cache.entries
      ensures at in cache.entries ==> |cache.order| > 0 && cache.order[|cache.order| - 1] == at
      decreases remain, 0
    {
      ghost var e0 := cache.entries;
      var prev := ValueRecursive(source, first, at - 1, remain - 1);
      r := Advance(prev, source(at), alpha);
      if r.InRange? {
        ghost var e1 := cache.entries;
        RefreshedFacts(cache.order, at);
        cache.Insert(at, r.v);
        NewKeysStayFaithful(e0, e1, cache.entries, source, first, alpha, at, remain, r.v);
      } else {
        WidenFaithful(e0, cache.entries, source, first, alpha, at, remain);
      }
    }

    /** `value`: the recursion to the full depth. */
    method Value(source: int -> Res<real>, first: int -> Res<real>, at: int) returns (r: Res<real>)
      requires Valid()
      modifies cache
      ensures Valid()
      ensures r == EmaOf(old(cache.entries), source, first, alpha, at, actualPeriod)
      ensures actualPeriod > 0 && r.InRange? && cache.capacity > 0 ==> at in cache.entries && cache.entries[at] == r.v
      ensures Faithful(old(cache.entries), cache.entries, source, first, alpha, at, actualPeriod)
      ensures |cache.order| <= |old(cache.order)| + actualPeriod
      ensures |old(cache.order)| + actualPeriod <= cache.capacity ==> forall k :: k in old(cache.entries) ==> k in cache.entries
      ensures actualPeriod > 0 && at in cache.entries ==> |cache.order| > 0 && cache.order[|cache.order| - 1] == at
    {
      r := ValueRecursive(source, first, at, actualPeriod);
    }
  }

  /** The source of the EMA test: five 1s then five 3s from index 0. */
  function Steps(i: int): Res<real>
  {
    VecIndicator.SeriesValue(0, [1.0, 1.0, 1.0, 1.0, 1.0, 3.0, 3.0, 3.0, 3.0, 3.0], i)
  }

  /** The EMA test settings: n = 3 (alpha = 1/2), depth 4, capacity 100. */
  ghost predicate TestSetting(e: Ema)
    reads e, e.cache
  {
    e.Valid() && e.alpha == 0.5 && e.actualPeriod == 4 && e.cache.capacity == 100
  }

  /** Queries 0..3 reach below index 0, are out of range, and cache
      nothing. */
  method EarlyQuery(e: Ema, at: int) returns (r: Res<real>)
    requires TestSetting(e) && e.cache.entries == map[] && 0 <= at <= 3
    modifies e.cache
    ensures TestSetting(e) && e.cache.entries == map[]
    ensures r == OutOfRange
  {
    r := e.Value(Steps, Steps, at);
    EmptyCacheBelowSeed(Steps, Steps, 0.5, at, 4);
    forall k | k in e.cache.entries
      ensures false
    {
      EmptyCacheBelowSeed(Steps, Steps, 0.5, k, 4 - (at - k));
    }
  }

  /** Query 4 recurses down to the seed at 0 and caches 1 at 4. */
  method FirstValueQuery(e: Ema) returns (r: Res<real>)
    requires TestSetting(e) && e.cache.entries == map[]
    modifies e.cache
    ensures TestSetting(e) && r == InRange(1.0)
    ensures 4 in e.cache.entries && e.cache.entries[4] == 1.0
    ensures forall k :: k in e.cache.entries ==> k <= 4
  {
    assert EmaOf(map[], Steps, Steps, 0.5, 1, 1) == InRange(1.0);
    assert EmaOf(map[], Steps, Steps, 0.5, 2, 2) == InRange(1.0);
    assert EmaOf(map[], Steps, Steps, 0.5, 3, 3) == InRange(1.0);
    r := e.Value(Steps, Steps, 4);
  }

  /** A later query whose predecessor is cached as `w` takes one step
      from `w` and caches the result. */
  method NextQuery(e: Ema, at: int, w: real) returns (r: Res<real>)
    requires TestSetting(e) && 5 <= at <= 9
    requires at - 1 in e.cache.entries && e.cache.entries[at - 1] == w
    requires forall k :: k in e.cache.entries ==> k < at
    modifies e.cache
    ensures TestSetting(e) && r == InRange(w + (3.0 - w) * 0.5)
    ensures at in e.cache.entries && e.cache.entries[at] == r.v
    ensures forall k :: k in e.cache.entries ==> k <= at
  {
    assert Steps(at) == InRange(3.0);
    r := e.Value(Steps, Steps, at);
  }

  /** The EMA test: five 1s then five 3s, n = 3, read in order: out of
      range four times, then 1, 2, 2.5, 2.75, 2.875, 2.9375. */
  method EmaExample() returns (rs: seq<Res<real>>)
    ensures rs == [OutOfRange, OutOfRange, OutOfRange, OutOfRange,
                   InRange(1.0), InRange(2.0), InRange(2.5), InRange(2.75), InRange(2.875), InRange(2.9375)]
  {
    var e := new Ema(3, 4, 100);
    assert e.alpha == 0.5;
    var r0 := EarlyQuery(e, 0);
    var r1 := EarlyQuery(e, 1);
    var r2 := EarlyQuery(e, 2);
    var r3 := EarlyQuery(e, 3);
    var r4 := FirstValueQuery(e);
    var r5 := NextQuery(e, 5, 1.0);
    var r6 := NextQuery(e, 6, 2.0);
    var r7 := NextQuery(e, 7, 2.5);
    var r8 := NextQuery(e, 8, 2.75);
    var r9 := NextQuery(e, 9, 2.875);
    rs := [r0, r1, r2, r3, r4, r5, r6, r7, r8, r9];
  }

  /** The same index read first, with nothing cached, is the plain
      depth-4 recursion over 3s: 3, not the 2.9375 of the in-order
      reads. */
  lemma UncachedReadDiffers()
    ensures EmaOf(map[], Steps, Steps, 0.5, 9, 4) == InRange(3.0)
  {
    assert EmaOf(map[], Steps, Steps, 0.5, 6, 1) == InRange(3.0);
    assert EmaOf(map[], Steps, Steps, 0.5, 7, 2) == InRange(3.0);
    assert EmaOf(map[], Steps, Steps, 0.5, 8, 3) == InRange(3.0);
  }
}

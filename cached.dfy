/**
 * `Cached`: memoises an indicator with a `VecCache`, a pair of growable
 * vectors of optional slots (one for indices >= 0, one for indices < 0,
 * addressed by their magnitude). A slot holding `None` reads the same
 * as a slot never written, so a `None` from the source is asked again
 * on the next read.
 */
module CachedIndicator {

  import opened Results
  import VecIndicator

  function Nones<T>(n: nat): (s: seq<Option<T>>)
    ensures |s| == n && forall i :: 0 <= i < n ==> s[i] == None
  {
    if n == 0 then [] else Nones(n - 1) + [None]
  }

  class VecCache<T> {
    var cache: seq<Option<T>>
    var cacheMinus: seq<Option<T>>

    constructor ()
      ensures cache == [] && cacheMinus == []
      ensures forall i :: Get(i) == None
    {
      cache := [];
      cacheMinus := [];
    }

    /** `get`: the slot of `index` if the vector reaches it, else `None`. */
    function Get(index: int): (r: Option<T>)
      reads this
      ensures index >= 0 ==> r == if index < |cache| then cache[index] else None
      ensures index < 0 ==> r == if -index < |cacheMinus| then cacheMinus[-index] else None
    {
      if index >= 0 then
        if index < |cache| then cache[index] else None
      else
        if -index < |cacheMinus| then cacheMinus[-index] else None
    }

    /** `set`: pads the vector with empty slots up to `index`, then writes
        the slot. Every other index reads as before. */
    method Set(index: int, value: Option<T>)
      modifies this
      ensures Get(index) == value
      ensures forall j :: j != index ==> Get(j) == old(Get(j))
    {
      if index >= 0 {
        if index >= |cache| {
          var pad := index + 1 - |cache|;
          for k := 0 to pad
            invariant cache == old(cache) + Nones(k)
            invariant forall j :: Get(j) == old(Get(j))
          {
            cache := cache + [None];
          }
        }
        cache := cache[index := value];
      } else {
        var m := -index;
        if m >= |cacheMinus| {
          var pad := m + 1 - |cacheMinus|;
          for k := 0 to pad
            invariant cacheMinus == old(cacheMinus) + Nones(k)
            invariant forall j :: Get(j) == old(Get(j))
          {
            cacheMinus := cacheMinus + [None];
          }
        }
        cacheMinus := cacheMinus[m := value];
      }
    }
  }

  class Cached<U> {
    const store: VecCache<U>

    constructor ()
      ensures fresh(store) && forall i :: store.Get(i) == None
    {
      store := new VecCache();
    }

    /** Every value the cache holds is the source's value at that index. */
    ghost predicate Agrees(source: int -> Option<U>)
      reads this, store
    {
      forall i :: store.Get(i).Some? ==> store.Get(i) == source(i)
    }

    /** `value`: a cached value is returned as is; otherwise the source is
        asked and its answer, `None` included, is written to the cache. */
    method Value(source: int -> Option<U>, index: int) returns (r: Option<U>)
      modifies store
      ensures r == if old(store.Get(index)).Some? then old(store.Get(index)) else source(index)
      ensures store.Get(index) == r
      ensures forall j :: j != index ==> store.Get(j) == old(store.Get(j))
      ensures old(Agrees(source)) ==> r == source(index) && Agrees(source)
    {
      var maybe := store.Get(index);
      if maybe.Some? {
        r := maybe;
      } else {
        r := source(index);
        store.Set(index, r);
      }
    }

    /** A source that only grows (a value, once there, stays the same)
        keeps agreeing with the cache: memoising it is transparent. */
    lemma AgreesAsSourceGrows(source: int -> Option<U>, grown: int -> Option<U>)
      requires Agrees(source)
      requires forall i :: source(i).Some? ==> grown(i) == source(i)
      ensures Agrees(grown)
    {
    }
  }

  /** Memoising a growing vector: a read that found nothing is not kept,
      so the element appended afterwards is seen by the next read. */
  method CachedVecExample() returns (before: Option<real>, after: Option<real>, again: Option<real>)
    ensures before == None && after == Some(3.0) && again == Some(1.0)
  {
    var c := new Cached<real>();
    var xs := [1.0, 2.0];
    before := c.Value(i => VecIndicator.VecValue(xs, i), 2);
    var _ := c.Value(i => VecIndicator.VecValue(xs, i), 0);
    xs := xs + [3.0];
    after := c.Value(i => VecIndicator.VecValue(xs, i), 2);
    again := c.Value(i => VecIndicator.VecValue([9.0], i), 0);
  }
}

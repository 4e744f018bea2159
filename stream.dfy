/**
 * The streaming combinators: `Map` and `Zip` read point-wise or pulled in
 * order, `FuncIter` which turns a random-access indicator into a pulled
 * stream, and `IterVec` / `IterStorage` / `IterConsumerStorage` which turn
 * a pulled stream back into a random-access indicator by materialising
 * what they pull.
 *
 * A random-access source is a function of the index. A pulled stream
 * reads its source at each `next`, and the source is handed in at each
 * call: between two calls the shared source may have grown.
 */
module Stream {

  import opened Results
  import opened StorageIndicator
  import VecIndicator

  /** `Map::value`: the function is applied to a value of the source,
      a non-value is handed on unchanged. */
  function MapValue<V1, V2>(source: int -> Res<V1>, f: V1 -> V2, i: int): (r: Res<V2>)
    ensures r.InRange? <==> source(i).InRange?
    ensures r.NotFixed? <==> source(i).NotFixed?
    ensures r.InRange? ==> r.v == f(source(i).v)
  {
    MapRes(source(i), f)
  }

  /** A `Map` indicator as a function of the index. */
  function Mapped<V1, V2>(source: int -> Res<V1>, f: V1 -> V2): int -> Res<V2>
  {
    i => MapValue(source, f, i)
  }

  /** Two maps in a row are one map by the composed function. */
  lemma MapFuses<A, B, C>(source: int -> Res<A>, f: A -> B, g: B -> C, i: int)
    ensures MapValue(Mapped(source, f), g, i) == MapValue(source, x => g(f(x)), i)
  {
  }

  /** `Zip::value`: a pair exactly when both sources have a value at the
      index; otherwise the first source's non-value, then the second's. */
  function ZipValue<A, B>(source1: int -> Res<A>, source2: int -> Res<B>, i: int): (r: Res<(A, B)>)
    ensures r.InRange? <==> source1(i).InRange? && source2(i).InRange?
    ensures r.InRange? ==> r.v == (source1(i).v, source2(i).v)
    ensures !source1(i).InRange? ==> r == Forward(source1(i))
    ensures source1(i).InRange? && !source2(i).InRange? ==> (r.NotFixed? <==> source2(i).NotFixed?)
  {
    ZipRes(source1(i), source2(i))
  }

  /** A `Zip` indicator as a function of the index. */
  function Zipped<A, B>(source1: int -> Res<A>, source2: int -> Res<B>): int -> Res<(A, B)>
  {
    i => ZipValue(source1, source2, i)
  }

  /** Projecting a zip on either side gives that side back wherever the
      zip has a value. */
  lemma ZipProjects<A, B>(source1: int -> Res<A>, source2: int -> Res<B>, i: int)
    requires ZipValue(source1, source2, i).InRange?
    ensures MapValue(Zipped(source1, source2), (p: (A, B)) => p.0, i) == source1(i)
    ensures MapValue(Zipped(source1, source2), (p: (A, B)) => p.1, i) == source2(i)
  {
  }

  function AbsInt(x: int): nat
  {
    if x < 0 then -x else x
  }

  /** The zip test: [1..5] zipped with [0, -1, 0, 1, 0] and mapped by
      `v1 * |v2|`. */
  lemma ZipExample()
    ensures forall i :: 0 <= i < 5 ==>
      MapValue(Zipped(VecIndicator.Series(0, [1.0, 2.0, 3.0, 4.0, 5.0]), VecIndicator.Series(0, [0, -1, 0, 1, 0])),
               (p: (real, int)) => p.0 * AbsInt(p.1) as real, i)
      == InRange([0.0, 2.0, 0.0, 4.0, 0.0][i])
  {
    var s1 := VecIndicator.Series(0, [1.0, 2.0, 3.0, 4.0, 5.0]);
    var s2 := VecIndicator.Series(0, [0, -1, 0, 1, 0]);
    forall i | 0 <= i < 5
      ensures MapValue(Zipped(s1, s2), (p: (real, int)) => p.0 * AbsInt(p.1) as real, i)
              == InRange([0.0, 2.0, 0.0, 4.0, 0.0][i])
    {
      assert s1(i) == InRange((i + 1) as real);
      assert s2(i) == InRange([0, -1, 0, 1, 0][i]);
    }
  }

  /** `FuncIter`: pulls a random-access source in index order from
      `offset`. */
  class FuncIter<V> {
    var offset: int

    constructor (offset: int)
      ensures this.offset == offset
    {
      this.offset := offset;
    }

    /** Reads the source at the offset; the offset moves on by one only
        when that read was a value. */
    method Next(source: int -> Res<V>) returns (r: Res<V>)
      modifies this
      ensures r == source(old(offset))
      ensures offset == (if r.InRange? then old(offset) + 1 else old(offset))
    {
      r := source(offset);
      if r.InRange? {
        offset := offset + 1;
      }
    }
  }

  /** `Map` pulled as a stream: whatever its source stream yields next,
      mapped. */
  class MapIter<V1, V2> {
    const inner: FuncIter<V1>
    const func: V1 -> V2

    constructor (inner: FuncIter<V1>, func: V1 -> V2)
      ensures this.inner == inner && this.func == func
    {
      this.inner := inner;
      this.func := func;
    }

    method Next(source: int -> Res<V1>) returns (r: Res<V2>)
      modifies inner
      ensures r.InRange? <==> source(old(inner.offset)).InRange?
      ensures r.InRange? ==> r.v == func(source(old(inner.offset)).v)
      ensures r.InRange? ==> inner.offset == old(inner.offset) + 1
      ensures !r.InRange? ==> r == MapRes(source(old(inner.offset)), func) && inner.offset == old(inner.offset)
    {
      var v := inner.Next(source);
      r := MapRes(v, func);
    }

    /** `Map::offset` is the source stream's offset. */
    function Offset(): (o: int)
      reads inner
      ensures o == inner.offset
    {
      inner.offset
    }
  }

  /** The longest run of values of `source` from index `from` on, up to
      the first index that is not a value (`hi` is one such index, which
      bounds the run). */
  function Run<V>(source: int -> Res<V>, from: int, hi: int): seq<V>
    requires from <= hi && !source(hi).InRange?
    decreases hi - from
  {
    if source(from).InRange? then [source(from).v] + Run(source, from + 1, hi) else []
  }

  /** A run is the values at `from`, `from + 1`, ... and stops at the
      first index that is not a value. */
  lemma {:induction false} RunIsMaximal<V>(source: int -> Res<V>, from: int, hi: int)
    requires from <= hi && !source(hi).InRange?
    ensures |Run(source, from, hi)| <= hi - from
    ensures forall k :: 0 <= k < |Run(source, from, hi)| ==> source(from + k) == InRange(Run(source, from, hi)[k])
    ensures !source(from + |Run(source, from, hi)|).InRange?
    decreases hi - from
  {
    if source(from).InRange? {
      RunIsMaximal(source, from + 1, hi);
      var tail := Run(source, from + 1, hi);
      assert Run(source, from, hi) == [source(from).v] + tail;
      forall k | 0 <= k < |Run(source, from, hi)|
        ensures source(from + k) == InRange(Run(source, from, hi)[k])
      {
        if k > 0 {
          assert Run(source, from, hi)[k] == tail[k - 1];
          assert source((from + 1) + (k - 1)) == InRange(tail[k - 1]);
        }
      }
    }
  }

  /** `into_std().collect()`: pulls until the stream yields a non-value
      (`StdIter::next` turns it into `None`) and returns the values. */
  method CollectAll<V>(it: FuncIter<V>, source: int -> Res<V>, ghost hi: int) returns (xs: seq<V>)
    requires it.offset <= hi && !source(hi).InRange?
    modifies it
    ensures xs == Run(source, old(it.offset), hi)
    ensures it.offset == old(it.offset) + |xs|
  {
    xs := [];
    while true
      invariant old(it.offset) + |xs| == it.offset <= hi
      invariant Run(source, old(it.offset), hi) == xs + Run(source, it.offset, hi)
      decreases hi - it.offset
    {
      var r := it.Next(source);
      if !r.InRange? {
        return;
      }
      xs := xs + [r.v];
    }
  }

  /** The source the summing closure of the iterator tests behaves as
      when pulled in order: at index `i` the sum of the first `i + 1`
      elements of [1..5]. */
  function RunningSum(i: int): Res<real>
  {
    if i == 0 then InRange(1.0)
    else if i == 1 then InRange(3.0)
    else if i == 2 then InRange(6.0)
    else if i == 3 then InRange(10.0)
    else if i == 4 then InRange(15.0)
    else OutOfRange
  }

  /** The iterator test: the running sums of [1..5], collected. */
  method IterExample() returns (xs: seq<real>)
    ensures xs == [1.0, 3.0, 6.0, 10.0, 15.0]
  {
    var it := new FuncIter(0);
    xs := CollectAll(it, RunningSum, 5);
    assert Run(RunningSum, 4, 5) == [15.0];
    assert Run(RunningSum, 3, 5) == [10.0, 15.0];
    assert Run(RunningSum, 2, 5) == [6.0, 10.0, 15.0];
    assert Run(RunningSum, 1, 5) == [3.0, 6.0, 10.0, 15.0];
  }

  /** `Zip` pulled as a stream, as written: the first stream is pulled
      before the second, so when the first yields a value and the second
      does not, the first value is dropped and the two streams fall out
      of step. */
  class ZipIter<A, B> {
    const first: FuncIter<A>
    const second: FuncIter<B>

    constructor (first: FuncIter<A>, second: FuncIter<B>)
      requires first as object != second as object
      ensures this.first == first && this.second == second
    {
      this.first := first;
      this.second := second;
    }

    method Next(source1: int -> Res<A>, source2: int -> Res<B>) returns (r: Res<(A, B)>)
      requires first as object != second as object
      modifies first, second
      ensures r.InRange? <==> source1(old(first.offset)).InRange? && source2(old(second.offset)).InRange?
      ensures r.InRange? ==> r.v == (source1(old(first.offset)).v, source2(old(second.offset)).v)
      ensures first.offset == (if source1(old(first.offset)).InRange? then old(first.offset) + 1 else old(first.offset))
      ensures second.offset == (if r.InRange? then old(second.offset) + 1 else old(second.offset))
      ensures !r.InRange? ==> (r.NotFixed? <==>
        if source1(old(first.offset)).InRange? then source2(old(second.offset)).NotFixed? else source1(old(first.offset)).NotFixed?)
    {
      var v1 := first.Next(source1);
      if !v1.InRange? {
        r := Forward(v1);
        return;
      }
      var v2 := second.Next(source2);
      if !v2.InRange? {
        r := Forward(v2);
        return;
      }
      r := InRange((v1.v, v2.v));
    }

    /** `Zip::offset` is the first stream's offset. */
    function Offset(): (o: int)
      reads first
      ensures o == first.offset
    {
      first.offset
    }
  }

  /** `Zip` pulled as a stream, keeping the first stream's value when the
      second has none yet, so that the pairs stay in step. */
  class HoldingZipIter<A, B> {
    const first: FuncIter<A>
    const second: FuncIter<B>
    var held: Option<A>

    /** The first stream is one ahead of the second exactly while a value
        is held. */
    ghost predicate InStep()
      reads this, first, second
    {
      first as object != second as object &&
      first.offset == second.offset + (if held.Some? then 1 else 0)
    }

    /** The held value is the first source's value at the index the
        second stream is at. */
    ghost predicate HeldFrom(source1: int -> Res<A>)
      reads this, second
    {
      held.Some? ==> source1(second.offset) == InRange(held.value)
    }

    constructor (first: FuncIter<A>, second: FuncIter<B>)
      requires first as object != second as object
      requires first.offset == second.offset
      ensures this.first == first && this.second == second && held == None
      ensures InStep()
    {
      this.first := first;
      this.second := second;
      held := None;
    }

    method Next(source1: int -> Res<A>, source2: int -> Res<B>) returns (r: Res<(A, B)>)
      requires InStep()
      modifies this, first, second
      ensures InStep()
      ensures old(HeldFrom(source1)) ==> HeldFrom(source1)
      ensures old(HeldFrom(source1)) ==>
        (r.InRange? <==> source1(old(second.offset)).InRange? && source2(old(second.offset)).InRange?)
      ensures old(HeldFrom(source1)) && r.InRange? ==>
        r.v == (source1(old(second.offset)).v, source2(old(second.offset)).v)
      ensures old(HeldFrom(source1)) && !r.InRange? ==> (r.NotFixed? <==>
        if source1(old(second.offset)).InRange? then source2(old(second.offset)).NotFixed? else source1(old(second.offset)).NotFixed?)
      ensures r.InRange? ==> second.offset == old(second.offset) + 1 && held == None
      ensures !r.InRange? ==> second.offset == old(second.offset)
    {
      var a: A;
      if held.Some? {
        a := held.value;
      } else {
        var v1 := first.Next(source1);
        if !v1.InRange? {
          r := Forward(v1);
          return;
        }
        a := v1.v;
      }
      var v2 := second.Next(source2);
      if !v2.InRange? {
        held := Some(a);
        r := Forward(v2);
        return;
      }
      held := None;
      r := InRange((a, v2.v));
    }

    /** The index of the next pair: the second stream's offset, which is
        the first stream's while nothing is held and one behind it while
        a value is held. */
    function Offset(): (o: int)
      reads this, first, second
      ensures InStep() ==> o + (if held.Some? then 1 else 0) == first.offset
    {
      second.offset
    }
  }

  /** The first source of the zip scenarios: 10 at 0 and 20 at 1. */
  function Tens(i: int): Res<real>
  {
    VecIndicator.SeriesValue(0, [10.0, 20.0], i)
  }

  /** The second source before its first value arrives, and after. */
  function NotYet(i: int): Res<int>
  {
    NotFixed
  }

  function Ones(i: int): Res<int>
  {
    VecIndicator.SeriesValue(0, [1, 2], i)
  }

  /** As written: the second stream is not fixed at the first pull and is
      at the second; the second pull pairs 20 (index 1) with 1 (index 0),
      10 having been dropped. */
  method ZipLosesValue() returns (r1: Res<(real, int)>, r2: Res<(real, int)>)
    ensures r1 == NotFixed
    ensures r2 == InRange((20.0, 1))
  {
    var f := new FuncIter(0);
    var s := new FuncIter(0);
    var z := new ZipIter(f, s);
    assert Tens(0) == InRange(10.0) && Tens(1) == InRange(20.0) && Ones(0) == InRange(1);
    r1 := z.Next(Tens, NotYet);
    r2 := z.Next(Tens, Ones);
  }

  /** Kept in step: the same pulls pair 10 with 1. */
  method HoldingZipKeepsValue() returns (r1: Res<(real, int)>, r2: Res<(real, int)>)
    ensures r1 == NotFixed
    ensures r2 == InRange((10.0, 1))
  {
    var f := new FuncIter(0);
    var s := new FuncIter(0);
    var z := new HoldingZipIter(f, s);
    assert Tens(0) == InRange(10.0) && Tens(1) == InRange(20.0) && Ones(0) == InRange(1);
    r1 := z.Next(Tens, NotYet);
    r2 := z.Next(Tens, Ones);
  }

  /** `IterVec`: a pulled stream materialised into a vector that starts at
      the stream's offset when the `IterVec` is made. */
  class IterVec<V> {
    const source: FuncIter<V>
    const start: int
    var vec: seq<V>

    ghost predicate Valid()
      reads this, source
    {
      source.offset == start + |vec|
    }

    /** The materialised values are what the source has at their indices. */
    ghost predicate Agrees(src: int -> Res<V>)
      reads this
    {
      forall k :: 0 <= k < |vec| ==> src(start + k) == InRange(vec[k])
    }

    constructor (source: FuncIter<V>)
      ensures this.source == source && start == source.offset && vec == []
      ensures Valid()
    {
      this.source := source;
      start := source.offset;
      vec := [];
    }

    /** `update_to(seq)`: pulls and appends values until the stream's
        offset is past `i`, stopping early at a non-value. */
    method UpdateTo(src: int -> Res<V>, i: int)
      requires Valid()
      modifies this, source
      ensures Valid()
      ensures old(vec) <= vec
      ensures forall k :: |old(vec)| <= k < |vec| ==> src(start + k) == InRange(vec[k])
      ensures source.offset > i || !src(source.offset).InRange?
      ensures source.offset <= (if old(source.offset) > i then old(source.offset) else i + 1)
    {
      while source.offset <= i
        invariant Valid()
        invariant old(vec) <= vec
        invariant forall k :: |old(vec)| <= k < |vec| ==> src(start + k) == InRange(vec[k])
        invariant source.offset <= (if old(source.offset) > i then old(source.offset) else i + 1)
        decreases i - source.offset
      {
        var r := source.Next(src);
        if !r.InRange? {
          return;
        }
        vec := vec + [r.v];
      }
    }

    /** `value(seq)`: brings the vector up to `i`, then reads it. If the
        vector agreed with the source, it still does, and the read is a
        value exactly when the source has values at every index from the
        start through `i`, the source's own value. */
    method Value(src: int -> Res<V>, i: int) returns (r: Res<V>)
      requires Valid()
      modifies this, source
      ensures Valid() && old(vec) <= vec
      ensures r == VecIndicator.SeriesValue(start, vec, i)
      ensures i < old(source.offset) ==> vec == old(vec)
      ensures vec == old(vec) || start + |vec| <= i + 1
      ensures old(Agrees(src)) ==> Agrees(src)
      ensures old(Agrees(src)) ==>
        (r.InRange? <==> start <= i && forall k :: start <= k <= i ==> src(k).InRange?)
      ensures old(Agrees(src)) && r.InRange? ==> r == src(i)
    {
      UpdateTo(src, i);
      r := VecIndicator.SeriesValue(start, vec, i);
      if old(Agrees(src)) {
        assert Agrees(src) by {
          forall k | 0 <= k < |vec|
            ensures src(start + k) == InRange(vec[k])
          {
            if k < |old(vec)| {
              assert vec[k] == old(vec)[k];
            }
          }
        }
        if r.InRange? {
          forall k | start <= k <= i
            ensures src(k).InRange?
          {
            assert src(start + (k - start)) == InRange(vec[k - start]);
          }
        } else if start <= i {
          assert !src(source.offset).InRange? && start <= source.offset <= i;
        }
      }
    }
  }

  /** The via-iterator test, first query: index 4 is the sum 15, and all
      five elements have been pulled (the closure has run five times). */
  method ViaIterFirst(iv: IterVec<real>) returns (r: Res<real>)
    requires iv.start == 0 && iv.vec == [] && iv.Valid()
    modifies iv, iv.source
    ensures r == InRange(15.0)
    ensures iv.Valid() && iv.start == 0 && |iv.vec| == 5 && iv.Agrees(RunningSum)
  {
    r := iv.Value(RunningSum, 4);
  }

  /** The via-iterator test, later queries: 5 is out of range, 3 is
      served from the vector, and nothing more is pulled. */
  method ViaIterLater(iv: IterVec<real>) returns (r5: Res<real>, r3: Res<real>)
    requires iv.Valid() && iv.start == 0 && |iv.vec| == 5 && iv.Agrees(RunningSum)
    modifies iv, iv.source
    ensures r5 == OutOfRange && r3 == InRange(10.0)
    ensures |iv.vec| == 5
  {
    r5 := iv.Value(RunningSum, 5);
    r3 := iv.Value(RunningSum, 3);
  }

  /** The via-iterator test: queries 4, 5, 3 give 15, out of range and
      10, with five pulls in all. */
  method ViaIterExample() returns (r4: Res<real>, r5: Res<real>, r3: Res<real>, pulls: nat)
    ensures r4 == InRange(15.0) && r5 == OutOfRange && r3 == InRange(10.0)
    ensures pulls == 5
  {
    var it := new FuncIter(0);
    var iv := new IterVec(it);
    r4 := ViaIterFirst(iv);
    r5, r3 := ViaIterLater(iv);
    pulls := |iv.vec|;
  }

  /** `IterStorage`: a pulled stream materialised into a `Storage` that
      starts at the stream's offset when the `IterStorage` is made. */
  class IterStorage<V> {
    const source: FuncIter<V>
    const storage: Storage<V>

    /** The storage ends where the stream is, with no gaps. */
    ghost predicate Valid()
      reads this, source, storage
    {
      storage.Valid() && storage.end == source.offset &&
      forall k :: storage.begin <= k < storage.end ==> k in storage.entries
    }

    /** The stored values are what the source has at their indices. */
    ghost predicate Agrees(src: int -> Res<V>)
      reads this, source, storage
    {
      Valid() && forall k :: storage.begin <= k < storage.end ==> src(k) == InRange(storage.entries[k])
    }

    constructor (source: FuncIter<V>)
      ensures this.source == source && fresh(storage)
      ensures storage.begin == source.offset && storage.entries == map[]
      ensures Valid()
    {
      this.source := source;
      storage := new Storage(source.offset);
    }

    /** `value(seq)`: the stored value, unwrapped; the storage has no
        gaps, so the unwrap never meets `None`. */
    function Value(i: int): (r: Res<V>)
      reads this, source, storage
      requires Valid()
      ensures r.OutOfRange? <==> i < storage.begin
      ensures r.NotFixed? <==> storage.begin <= i && source.offset <= i
      ensures r.InRange? ==> i in storage.entries && r.v == storage.entries[i]
    {
      match storage.Value(i)
      case OutOfRange => OutOfRange
      case NotFixed => NotFixed
      case InRange(o) => InRange(o.value)
    }

    /** `next`: pulls from the stream and stores a value at the index it
        was read from. */
    method Next(src: int -> Res<V>) returns (r: Res<V>)
      requires Valid()
      modifies source, storage
      ensures Valid() && storage.begin == old(storage.begin)
      ensures r == src(old(source.offset))
      ensures r.InRange? ==> source.offset == old(source.offset) + 1 &&
                             storage.entries == old(storage.entries)[old(source.offset) := r.v]
      ensures !r.InRange? ==> source.offset == old(source.offset) && storage.entries == old(storage.entries)
      ensures old(Agrees(src)) ==> Agrees(src)
    {
      var i := source.offset;
      r := source.Next(src);
      if r.InRange? {
        storage.Add(i, r.v);
      }
    }

    /** `update_to(seq)`, stopping at a non-value: pulls until the stream's
        offset is past `i` or the stream yields a non-value. */
    method UpdateTo(src: int -> Res<V>, i: int)
      requires Valid()
      modifies source, storage
      ensures Valid() && storage.begin == old(storage.begin)
      ensures source.offset > i || !src(source.offset).InRange?
      ensures old(source.offset) <= source.offset <= (if old(source.offset) > i then old(source.offset) else i + 1)
      ensures forall k :: k in old(storage.entries) ==> k in storage.entries && storage.entries[k] == old(storage.entries)[k]
      ensures forall k :: old(source.offset) <= k < source.offset ==> src(k) == InRange(storage.entries[k])
      ensures old(Agrees(src)) ==> Agrees(src)
    {
      while source.offset <= i
        invariant Valid() && storage.begin == old(storage.begin)
        invariant old(source.offset) <= source.offset <= (if old(source.offset) > i then old(source.offset) else i + 1)
        invariant forall k :: k in old(storage.entries) ==> k in storage.entries && storage.entries[k] == old(storage.entries)[k]
        invariant forall k :: old(source.offset) <= k < source.offset ==> src(k) == InRange(storage.entries[k])
        invariant old(Agrees(src)) ==> Agrees(src)
        decreases i - source.offset
      {
        var r := Next(src);
        if !r.InRange? {
          return;
        }
      }
    }
  }

  /** The loop of `IterStorage::update_to` as written, which goes round
      while the stream's offset is at most `i` and stops at nothing else,
      run for at most `fuel` rounds over a `FuncIter` stream: the final
      offset when the loop exits within them, `None` when it does not. */
  function UpdateToRounds<V>(src: int -> Res<V>, offset: int, i: int, fuel: nat): Option<int>
    decreases fuel
  {
    if offset > i then Some(offset)
    else if fuel == 0 then None
    else if src(offset).InRange? then UpdateToRounds(src, offset + 1, i, fuel - 1)
    else UpdateToRounds(src, offset, i, fuel - 1)
  }

  /** As written, once the stream meets a non-value at or before `i`, its
      offset no longer moves and the loop never exits, however many
      rounds it is given. */
  lemma {:induction false} UpdateToAsWrittenNeverExits<V>(src: int -> Res<V>, offset: int, i: int, fuel: nat)
    requires offset <= i && !src(offset).InRange?
    ensures UpdateToRounds(src, offset, i, fuel) == None
    decreases fuel
  {
    if fuel > 0 {
      UpdateToAsWrittenNeverExits(src, offset, i, fuel - 1);
    }
  }

  /** The concrete case: five values stored from a vector at 0, then a
      read of index 5 through the consumer storage. */
  lemma UpdateToAsWrittenHangs(fuel: nat)
    ensures UpdateToRounds(VecIndicator.Series(0, [1.0, 2.0, 3.0, 4.0, 5.0]), 5, 5, fuel) == None
  {
    UpdateToAsWrittenNeverExits(VecIndicator.Series(0, [1.0, 2.0, 3.0, 4.0, 5.0]), 5, 5, fuel);
  }

  /** `IterConsumerStorage`: an `IterStorage` that brings itself up to the
      index it is asked for. */
  class IterConsumerStorage<V> {
    const source: IterStorage<V>

    constructor (source: IterStorage<V>)
      ensures this.source == source
    {
      this.source := source;
    }

    /** `value(seq)`: `update_to(seq)`, then the stored read. If the
        storage agreed with the source, it still does, and the read is a
        value exactly when the source has values at every index from the
        storage's start through `i`, the source's own value. */
    method Value(src: int -> Res<V>, i: int) returns (r: Res<V>)
      requires source.Valid()
      modifies source.source, source.storage
      ensures source.Valid() && source.storage.begin == old(source.storage.begin)
      ensures r == source.Value(i)
      ensures i < source.storage.begin ==> r == OutOfRange
      ensures old(source.Agrees(src)) ==> source.Agrees(src)
      ensures old(source.Agrees(src)) ==>
        (r.InRange? <==> source.storage.begin <= i && forall k :: source.storage.begin <= k <= i ==> src(k).InRange?)
      ensures old(source.Agrees(src)) && r.InRange? ==> r == src(i)
    {
      source.UpdateTo(src, i);
      r := source.Value(i);
      if old(source.Agrees(src)) && source.storage.begin <= i && !r.InRange? {
        assert !src(source.source.offset).InRange? && source.storage.begin <= source.source.offset <= i;
      }
    }

    /** `next` is the storage's `next`. */
    method Next(src: int -> Res<V>) returns (r: Res<V>)
      requires source.Valid()
      modifies source.source, source.storage
      ensures source.Valid()
      ensures r == src(old(source.source.offset))
      ensures r.InRange? ==> source.source.offset == old(source.source.offset) + 1
      ensures !r.InRange? ==> source.source.offset == old(source.source.offset)
    {
      r := source.Next(src);
    }
  }
}

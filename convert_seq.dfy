/**
 * `Consume`: re-indexes a pulled stream. Each `next` moves its own output
 * offset on by one and hands the source stream, lent through `Internal`,
 * to a consumer function, which may pull as many source values as it
 * likes and yields one output value.
 */
module ConvertSeq {

  import opened Results
  import opened Stream
  import VecIndicator

  /** `Internal`: the source stream as the consumer sees it; pulls and
      offset reads pass straight through. */
  class Internal<V> {
    const source: FuncIter<V>

    constructor (source: FuncIter<V>)
      ensures this.source == source
    {
      this.source := source;
    }

    method Next(src: int -> Res<V>) returns (r: Res<V>)
      modifies source
      ensures r == src(old(source.offset))
      ensures source.offset == (if r.InRange? then old(source.offset) + 1 else old(source.offset))
    {
      r := source.Next(src);
    }

    /** The lent stream's offset, passed straight through. */
    function Offset(): (o: int)
      reads source
      ensures o == source.offset
    {
      source.offset
    }
  }

  /** The consumer functions a `Consume` is built with: pull one value and
      map it, or drain the stream and fold what it yields. */
  datatype Consumer<!V1, !V2> = TakeOne(f: V1 -> V2) | DrainFold(init: V2, step: (V2, V1) -> V2)

  /** `Iterator::fold`. */
  function FoldLeft<A, B>(acc: B, step: (B, A) -> B, xs: seq<A>): B
    decreases |xs|
  {
    if xs == [] then acc else FoldLeft(step(acc, xs[0]), step, xs[1..])
  }

  /** A drain needs the stream to run dry somewhere: `hi` is an index from
      the stream's offset on where it has no value. */
  predicate CanDrain<V1, V2>(consumer: Consumer<V1, V2>, src: int -> Res<V1>, from: int, hi: int)
  {
    consumer.DrainFold? ==> from <= hi && !src(hi).InRange?
  }

  /** The source values a consumer pulls when the stream is at `from`. */
  function Pulled<V1, V2>(consumer: Consumer<V1, V2>, src: int -> Res<V1>, from: int, hi: int): (xs: seq<V1>)
    requires CanDrain(consumer, src, from, hi)
    ensures forall k :: 0 <= k < |xs| ==> src(from + k) == InRange(xs[k])
  {
    match consumer
    case TakeOne(_) => if src(from).InRange? then [src(from).v] else []
    case DrainFold(_, _) => RunIsMaximal(src, from, hi); Run(src, from, hi)
  }

  /** What a consumer yields when the stream is at `from`: the mapped next
      value (or the stream's non-value), or the fold of the whole run. */
  function Consumed<V1, V2>(consumer: Consumer<V1, V2>, src: int -> Res<V1>, from: int, hi: int): Res<V2>
    requires CanDrain(consumer, src, from, hi)
  {
    match consumer
    case TakeOne(f) => MapRes(src(from), f)
    case DrainFold(init, step) => InRange(FoldLeft(init, step, Pulled(consumer, src, from, hi)))
  }

  /** A draining consumer leaves the stream at its first non-value; a
      mapping one yields a value exactly when it pulled one. */
  lemma ConsumedFacts<V1, V2>(consumer: Consumer<V1, V2>, src: int -> Res<V1>, from: int, hi: int)
    requires CanDrain(consumer, src, from, hi)
    ensures consumer.DrainFold? ==> !src(from + |Pulled(consumer, src, from, hi)|).InRange?
    ensures consumer.DrainFold? ==> Consumed(consumer, src, from, hi).InRange?
    ensures consumer.TakeOne? ==>
      (Consumed(consumer, src, from, hi).InRange? <==> |Pulled(consumer, src, from, hi)| == 1)
  {
    if consumer.DrainFold? {
      RunIsMaximal(src, from, hi);
    }
  }

  class Consume<V1, V2> {
    var offset: int
    const source: FuncIter<V1>
    const func: Consumer<V1, V2>

    constructor (offset: int, source: FuncIter<V1>, func: Consumer<V1, V2>)
      ensures this.offset == offset && this.source == source && this.func == func
    {
      this.offset := offset;
      this.source := source;
      this.func := func;
    }

    /** `next`: the output offset moves on by exactly one, whatever the
        consumer yields; the consumer's result is returned as it is. */
    method Next(src: int -> Res<V1>, ghost hi: int) returns (r: Res<V2>)
      requires CanDrain(func, src, source.offset, hi)
      modifies this, source
      ensures offset == old(offset) + 1
      ensures r == Consumed(func, src, old(source.offset), hi)
      ensures source.offset == old(source.offset) + |Pulled(func, src, old(source.offset), hi)|
    {
      offset := offset + 1;
      var internal := new Internal(source);
      match func
      case TakeOne(f) =>
        var v := internal.Next(src);
        r := MapRes(v, f);
      case DrainFold(init, step) =>
        var xs := CollectAll(internal.source, src, hi);
        r := InRange(FoldLeft(init, step, xs));
    }

    /** `offset` reads the output offset. */
    function Offset(): (o: int)
      reads this
      ensures o == offset
    {
      offset
    }
  }

  /** One pull of a mapping consumer: at a value it pulls that value and
      yields it mapped; at a non-value it pulls nothing and yields the
      non-value. */
  lemma TakeOneStep<V1, V2>(consumer: Consumer<V1, V2>, src: int -> Res<V1>, from: int, hi: int)
    requires consumer.TakeOne? && from <= hi && !src(hi).InRange?
    ensures src(from).InRange? ==>
      |Pulled(consumer, src, from, hi)| == 1 &&
      Consumed(consumer, src, from, hi) == InRange(consumer.f(src(from).v))
    ensures !src(from).InRange? ==>
      Pulled(consumer, src, from, hi) == [] && !Consumed(consumer, src, from, hi).InRange?
  {
  }

  /** A run is exactly `n` long when the source has values at the `n`
      indices from `from` and none at `from + n`. */
  lemma {:induction false} RunHasLength<V>(src: int -> Res<V>, from: int, hi: int, n: nat)
    requires from <= hi && !src(hi).InRange?
    requires forall j :: from <= j < from + n ==> src(j).InRange?
    requires !src(from + n).InRange?
    ensures |Run(src, from, hi)| == n
    ensures forall k :: 0 <= k < n ==> Run(src, from, hi)[k] == src(from + k).v
    decreases n
  {
    if n > 0 {
      assert src(from).InRange? && from < hi;
      RunHasLength(src, from + 1, hi, n - 1);
      var tail := Run(src, from + 1, hi);
      assert Run(src, from, hi) == [src(from).v] + tail;
      forall k | 0 <= k < n
        ensures Run(src, from, hi)[k] == src(from + k).v
      {
        if k > 0 {
          assert Run(src, from, hi)[k] == tail[k - 1];
        }
      }
    }
  }

  /** Every element of `xs` mapped by `f`, in order. */
  function MapAll<A, B>(f: A -> B, xs: seq<A>): (ys: seq<B>)
    ensures |ys| == |xs| && forall k :: 0 <= k < |xs| ==> ys[k] == f(xs[k])
  {
    seq(|xs|, k requires 0 <= k < |xs| => f(xs[k]))
  }

  /** `into_std().collect()` over a mapping `Consume`: every source value
      of the run, mapped; the call that meets the end of the run still
      moves the output offset on. */
  method CollectTakeOne<V1, V2>(c: Consume<V1, V2>, src: int -> Res<V1>, ghost hi: int) returns (ys: seq<V2>)
    requires c.func.TakeOne? && c.source.offset <= hi && !src(hi).InRange?
    modifies c, c.source
    ensures ys == MapAll(c.func.f, Run(src, old(c.source.offset), hi))
    ensures c.offset == old(c.offset) + |ys| + 1
  {
    ys := [];
    ghost var start := c.source.offset;
    ghost var f := c.func.f;
    while true
      invariant start <= c.source.offset <= hi
      invariant c.offset == old(c.offset) + |ys|
      invariant |ys| == c.source.offset - start
      invariant forall j :: start <= j < start + |ys| ==> src(j).InRange?
      invariant forall k :: 0 <= k < |ys| ==> ys[k] == f(src(start + k).v)
      decreases hi - c.source.offset
    {
      ghost var before := c.source.offset;
      TakeOneStep(c.func, src, before, hi);
      var r := c.Next(src, hi);
      if !r.InRange? {
        RunHasLength(src, start, hi, |ys|);
        return;
      }
      assert src(before).InRange? && r.v == f(src(before).v) && before == start + |ys|;
      ys := ys + [r.v];
    }
  }

  /** The map test: a consumer that pulls one value and doubles it, over
      [1..5] placed at 10, collected: [2, 4, 6, 8, 10]. */
  method MapExample() returns (ys: seq<real>)
    ensures ys == [2.0, 4.0, 6.0, 8.0, 10.0]
  {
    var src := VecIndicator.Series(10, [1.0, 2.0, 3.0, 4.0, 5.0]);
    var it := new FuncIter(10);
    var c := new Consume(0, it, TakeOne((v: real) => v * 2.0));
    assert Run(src, 14, 15) == [5.0];
    assert Run(src, 13, 15) == [4.0, 5.0];
    assert Run(src, 12, 15) == [3.0, 4.0, 5.0];
    assert Run(src, 11, 15) == [2.0, 3.0, 4.0, 5.0];
    assert Run(src, 10, 15) == [1.0, 2.0, 3.0, 4.0, 5.0];
    ys := CollectTakeOne(c, src, 15);
  }

  function Add(acc: real, v: real): real
  {
    acc + v
  }

  /** The fold test, first pull: [1, 2, 3] placed at 10, drained: 6. */
  method FoldFirst(c: Consume<real, real>) returns (r: Res<real>)
    requires c.func == DrainFold(0.0, Add) && c.source.offset == 10
    modifies c, c.source
    ensures r == InRange(6.0) && c.source.offset == 13 && c.offset == old(c.offset) + 1
  {
    var src := VecIndicator.Series(10, [1.0, 2.0, 3.0]);
    assert Run(src, 12, 13) == [3.0];
    assert Run(src, 11, 13) == [2.0, 3.0];
    assert Run(src, 10, 13) == [1.0, 2.0, 3.0];
    r := c.Next(src, 13);
  }

  /** After 4 is appended, the drain yields 4. */
  method FoldSecond(c: Consume<real, real>) returns (r: Res<real>)
    requires c.func == DrainFold(0.0, Add) && c.source.offset == 13
    modifies c, c.source
    ensures r == InRange(4.0) && c.source.offset == 14 && c.offset == old(c.offset) + 1
  {
    var src := VecIndicator.Series(10, [1.0, 2.0, 3.0, 4.0]);
    assert Run(src, 13, 14) == [4.0];
    assert FoldLeft(0.0, Add, [4.0]) == FoldLeft(4.0, Add, []);
    r := c.Next(src, 14);
  }

  /** After 5 and 2 are appended, the drain yields 7, and then 0 from
      the empty run. */
  method FoldLast(c: Consume<real, real>) returns (r3: Res<real>, r4: Res<real>)
    requires c.func == DrainFold(0.0, Add) && c.source.offset == 14
    modifies c, c.source
    ensures r3 == InRange(7.0) && r4 == InRange(0.0) && c.offset == old(c.offset) + 2
  {
    var src := VecIndicator.Series(10, [1.0, 2.0, 3.0, 4.0, 5.0, 2.0]);
    assert Run(src, 15, 16) == [2.0];
    assert Run(src, 14, 16) == [5.0, 2.0];
    assert FoldLeft(0.0, Add, [5.0, 2.0]) == FoldLeft(5.0, Add, [2.0]) == FoldLeft(7.0, Add, []);
    r3 := c.Next(src, 16);
    assert Run(src, 16, 16) == [];
    r4 := c.Next(src, 16);
  }

  /** The fold test: a draining sum over a source that grows between
      pulls yields 6, 4, 7 and 0, and the output offset counts the four
      pulls. */
  method FoldExample() returns (r1: Res<real>, r2: Res<real>, r3: Res<real>, r4: Res<real>, offset: int)
    ensures r1 == InRange(6.0) && r2 == InRange(4.0) && r3 == InRange(7.0) && r4 == InRange(0.0)
    ensures offset == 4
  {
    var it := new FuncIter(10);
    var c := new Consume(0, it, DrainFold(0.0, Add));
    r1 := FoldFirst(c);
    r2 := FoldSecond(c);
    r3, r4 := FoldLast(c);
    offset := c.Offset();
  }
}

/**
 * `Func2`: a binary function applied to two `Option` sources at the same
 * index.
 */
module Func {

  import opened Results
  import Stream
  import VecIndicator

  /** `Func2::value`: `None` when the first source has no value, then when
      the second has none; otherwise the closure of the two values. */
  function Func2Value<A, B, C>(s1: int -> Option<A>, s2: int -> Option<B>, f: (A, B) -> C, at: int): (r: Option<C>)
    ensures r.Some? <==> s1(at).Some? && s2(at).Some?
    ensures r.Some? ==> r.value == f(s1(at).value, s2(at).value)
  {
    match s1(at)
    case None => None
    case Some(in1) =>
      match s2(at)
      case None => None
      case Some(in2) => Some(f(in1, in2))
  }

  /** An `Option` read as a completion result: no value is out of range. */
  function Lift<V>(o: Option<V>): (r: Res<V>)
    ensures r.InRange? <==> o.Some?
    ensures !r.NotFixed?
    ensures o.Some? ==> r.v == o.value
  {
    if o.Some? then InRange(o.value) else OutOfRange
  }

  /** `Func2` is a map over the zip of its two sources. */
  lemma Func2IsMapOfZip<A, B, C>(s1: int -> Option<A>, s2: int -> Option<B>, f: (A, B) -> C, at: int)
    ensures Lift(Func2Value(s1, s2, f, at))
      == Stream.MapValue(Stream.Zipped((i: int) => Lift(s1(i)), (i: int) => Lift(s2(i))),
                         (p: (A, B)) => f(p.0, p.1), at)
  {
  }

  /** Swapping the sources together with the closure's arguments gives the
      same result. */
  lemma Func2Swap<A, B, C>(s1: int -> Option<A>, s2: int -> Option<B>, f: (A, B) -> C, at: int)
    ensures Func2Value(s2, s1, (b: B, a: A) => f(a, b), at) == Func2Value(s1, s2, f, at)
  {
  }

  /** The `Func2` test: [1..5] and [0, -1, 0, 1, 0] combined by
      `v1 * |v2|` give [0, 2, 0, 4, 0]. */
  lemma Func2Example()
    ensures forall i :: 0 <= i < 5 ==>
      Func2Value((k: int) => VecIndicator.VecValue([1.0, 2.0, 3.0, 4.0, 5.0], k),
                 (k: int) => VecIndicator.VecValue([0, -1, 0, 1, 0], k),
                 (v1: real, v2: int) => v1 * Stream.AbsInt(v2) as real, i)
      == Some([0.0, 2.0, 0.0, 4.0, 0.0][i])
  {
  }
}

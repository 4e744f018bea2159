/**
 * A plain vector read as an indicator, by position (the `Indicator` impl
 * for `Vec`), and the offset vector series the streaming indicators'
 * tests read from.
 */
module VecIndicator {

  import opened Results

  /** `Vec::value`: the element at a non-negative position inside the
      vector, `None` for a negative position or one past the end. */
  function VecValue<T>(xs: seq<T>, index: int): (r: Option<T>)
    ensures r.Some? <==> 0 <= index < |xs|
    ensures r.Some? ==> r.value == xs[index]
  {
    if index >= 0 then
      if |xs| > index then Some(xs[index]) else None
    else
      None
  }

  /** A vector only grows by appending, and a read that found a value
      keeps finding the same value afterwards. */
  lemma VecValueStable<T>(xs: seq<T>, ys: seq<T>, index: int)
    requires VecValue(xs, index).Some?
    ensures VecValue(xs + ys, index) == VecValue(xs, index)
  {
  }

  /** The vector test: positions 0..4 of [1, 2, 3, 4, 5]. */
  lemma VecExample()
    ensures forall i :: 0 <= i < 5 ==> VecValue([1.0, 2.0, 3.0, 4.0, 5.0], i) == Some((i + 1) as real)
    ensures VecValue([1.0, 2.0, 3.0, 4.0, 5.0], 5) == None
    ensures VecValue([1.0, 2.0, 3.0, 4.0, 5.0], -1) == None
  {
  }

  /** A vector placed at an offset, as the streaming indicators read it:
      a value inside `[offset, offset + |xs|)`, out of range elsewhere. */
  function SeriesValue<T>(offset: int, xs: seq<T>, i: int): (r: Res<T>)
    ensures r.InRange? <==> offset <= i < offset + |xs|
    ensures !r.NotFixed?
    ensures r.InRange? ==> r.v == xs[i - offset]
  {
    if offset <= i < offset + |xs| then InRange(xs[i - offset]) else OutOfRange
  }

  /** `SeriesValue` as an indicator: a function of the index. */
  function Series<T>(offset: int, xs: seq<T>): int -> Res<T>
  {
    i => SeriesValue(offset, xs, i)
  }
}

/**
 * `CountContinuousSameValues`: how many indices in a row, ending at the
 * queried one, the source has held the same result.
 */
module Count {

  import opened Results
  import VecIndicator

  /** `CountContinuousSameValues::value`: out of range where the source is;
      otherwise one more than the count one index back when the source
      result there is the same, and 1 when it differs (an out-of-range
      previous index included). `lo` is an index where the source is out
      of range, which ends the recursion. */
  function CountValue<V(==)>(source: int -> Res<V>, time: int, lo: int): (r: Res<int>)
    requires lo <= time && source(lo) == OutOfRange
    ensures r == OutOfRange <==> source(time) == OutOfRange
    ensures !r.NotFixed?
    ensures r.InRange? ==> r.v >= 1
    decreases time - lo
  {
    if source(time) == OutOfRange then OutOfRange
    else if source(time - 1) == source(time) then
      var prev := CountValue(source, time - 1, lo);
      if prev.InRange? then InRange(prev.v + 1) else prev
    else InRange(1)
  }

  /** The count is the length of the run: the source result at `time` is
      repeated at each of the `n` indices ending at `time`, and the index
      before them holds a different result. */
  lemma {:induction false} CountIsRunLength<V>(source: int -> Res<V>, time: int, lo: int, n: int)
    requires lo <= time && source(lo) == OutOfRange
    ensures CountValue(source, time, lo) == InRange(n) <==>
      source(time) != OutOfRange && n >= 1 &&
      (forall k :: time - n < k <= time ==> source(k) == source(time)) &&
      source(time - n) != source(time)
    decreases time - lo
  {
    if source(time) != OutOfRange && source(time - 1) == source(time) {
      CountIsRunLength(source, time - 1, lo, n - 1);
      if n >= 1 && (forall k :: time - n < k <= time ==> source(k) == source(time)) &&
         source(time - n) != source(time) {
        assert n != 1;
        assert forall k :: time - 1 - (n - 1) < k <= time - 1 ==> source(k) == source(time - 1);
      }
    }
  }

  /** The count test: [1, 1, 1, 2, 3, 3] gives 1, 2, 3, 1, 1, 2. */
  lemma CountExample()
    ensures var source := VecIndicator.Series(0, [1.0, 1.0, 1.0, 2.0, 3.0, 3.0]);
      [CountValue(source, 0, -1), CountValue(source, 1, -1), CountValue(source, 2, -1),
       CountValue(source, 3, -1), CountValue(source, 4, -1), CountValue(source, 5, -1)]
      == [InRange(1), InRange(2), InRange(3), InRange(1), InRange(1), InRange(2)]
  {
    var source := VecIndicator.Series(0, [1.0, 1.0, 1.0, 2.0, 3.0, 3.0]);
    assert source(-1) == OutOfRange;
    assert source(0) == source(1) == source(2) == InRange(1.0);
    assert source(3) == InRange(2.0);
    assert source(4) == source(5) == InRange(3.0);
  }
}

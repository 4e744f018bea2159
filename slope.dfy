/**
 * `Slope`: the change of a source from the previous index.
 */
module Slope {

  import opened Results
  import Rolling
  import VecIndicator

  /** `Slope::value`: the current value minus the previous one; a
      non-value at the current index is handed on first, then one at the
      previous index. */
  function SlopeValue(source: int -> Res<real>, at: int): (r: Res<real>)
    ensures r.InRange? <==> source(at).InRange? && source(at - 1).InRange?
    ensures !source(at).InRange? ==> r == source(at)
    ensures source(at).InRange? && !source(at - 1).InRange? ==> r == source(at - 1)
    ensures r.InRange? ==> source(at - 1).v + r.v == source(at).v
  {
    if !source(at).InRange? then source(at)
    else if !source(at - 1).InRange? then source(at - 1)
    else InRange(source(at).v - source(at - 1).v)
  }

  /** The slope indicator over a source. */
  function Slopes(source: int -> Res<real>): int -> Res<real>
  {
    (i: int) => SlopeValue(source, i)
  }

  /** Slopes telescope: over a stretch where the source has values, the
      slopes after `lo` add up to the total change from `lo` to `lo + n`. */
  lemma {:induction false} SlopesTelescope(source: int -> Res<real>, lo: int, n: nat)
    requires forall k :: lo <= k <= lo + n ==> source(k).InRange?
    ensures Rolling.WindowSum(Slopes(source), lo + 1, n) == InRange(source(lo + n).v - source(lo).v)
    decreases n
  {
    if n > 0 {
      SlopesTelescope(source, lo + 1, n - 1);
      assert Slopes(source)(lo + 1) == InRange(source(lo + 1).v - source(lo).v);
    }
  }

  /** The slope test: [1, 2, 4, 8, 6] gives out of range, then 1, 2, 4, -2. */
  lemma SlopeExample()
    ensures var source := VecIndicator.Series(0, [1.0, 2.0, 4.0, 8.0, 6.0]);
      [SlopeValue(source, 0), SlopeValue(source, 1), SlopeValue(source, 2),
       SlopeValue(source, 3), SlopeValue(source, 4)]
      == [OutOfRange, InRange(1.0), InRange(2.0), InRange(4.0), InRange(-2.0)]
  {
    var source := VecIndicator.Series(0, [1.0, 2.0, 4.0, 8.0, 6.0]);
    assert source(-1) == OutOfRange;
  }
}

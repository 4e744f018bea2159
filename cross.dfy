/**
 * `Cross`: whether two sources crossed at an index. The ordering of the
 * sources at the index is compared with the last ordering before it
 * that was not `Equal`, found by walking back past ties.
 */
module Cross {

  import opened Results
  import opened Ordering
  import VecIndicator

  datatype CrossState = NotCrossed | LtToGt | GtToLt

  /** `Cross::new`: the crossing of two sources is read from their
      ordering. */
  function CrossSource(s1: int -> Res<real>, s2: int -> Res<real>): int -> Res<Cmp>
  {
    Orderings(s1, s2)
  }

  /** Walking back from `i` past `Equal`: the first ordering that is not
      `Equal`, or `None` when the source runs out of values first. `lo`
      is an index where the source has no value, so the walk stops. */
  function PastDecisive(source: int -> Res<Cmp>, i: int, lo: int): Option<Cmp>
    requires lo <= i && !source(lo).InRange?
    decreases i - lo
  {
    if !source(i).InRange? then None
    else if source(i).v != Equal then Some(source(i).v)
    else PastDecisive(source, i - 1, lo)
  }

  /** The decision table of the walk: a past ordering opposite to the
      current one is a crossing in that direction, the same one is not. */
  function Decide(past: Cmp, current: Cmp): CrossState
  {
    if past == Greater && current == Less then GtToLt
    else if past == Less && current == Greater then LtToGt
    else NotCrossed
  }

  /** What `Cross::value` answers at `time`. */
  function CrossOf(source: int -> Res<Cmp>, time: int, lo: int): Res<CrossState>
    requires lo < time && !source(lo).InRange?
  {
    if !source(time).InRange? then Forward(source(time))
    else if source(time).v == Equal then InRange(NotCrossed)
    else
      match PastDecisive(source, time - 1, lo)
      case None => InRange(NotCrossed)
      case Some(past) => InRange(Decide(past, source(time).v))
  }

  /** The walk finds `p` exactly when `p` is at some index `j` at or below
      `i` and everything after `j` up to `i` is `Equal`. */
  lemma {:induction false} PastDecisiveFinds(source: int -> Res<Cmp>, i: int, lo: int, p: Cmp)
    requires lo <= i && !source(lo).InRange? && p != Equal
    ensures PastDecisive(source, i, lo) == Some(p) <==>
      exists j :: j <= i && source(j) == InRange(p) &&
                  forall k :: j < k <= i ==> source(k) == InRange(Equal)
    decreases i - lo
  {
    if source(i).InRange? && source(i).v == Equal {
      PastDecisiveFinds(source, i - 1, lo, p);
      if exists j :: j <= i && source(j) == InRange(p) &&
                     forall k :: j < k <= i ==> source(k) == InRange(Equal) {
        var j :| j <= i && source(j) == InRange(p) &&
                 forall k :: j < k <= i ==> source(k) == InRange(Equal);
        assert j != i;
        assert j >= lo;
        assert j <= i - 1 && forall k :: j < k <= i - 1 ==> source(k) == InRange(Equal);
      }
    } else if source(i).InRange? && source(i).v == p {
      assert forall k :: i < k <= i ==> source(k) == InRange(Equal);
    } else {
      if exists j :: j <= i && source(j) == InRange(p) &&
                     forall k :: j < k <= i ==> source(k) == InRange(Equal) {
        var j :| j <= i && source(j) == InRange(p) &&
                 forall k :: j < k <= i ==> source(k) == InRange(Equal);
        assert j != i;
        assert source(i) == InRange(Equal);
      }
    }
  }

  /** A crossing from below to above at `time`: the current ordering is
      `Greater`, and before it, past a run of `Equal`, it was `Less`. */
  lemma CrossLtToGtIff(source: int -> Res<Cmp>, time: int, lo: int)
    requires lo < time && !source(lo).InRange?
    ensures CrossOf(source, time, lo) == InRange(LtToGt) <==>
      source(time) == InRange(Greater) &&
      exists j :: j < time && source(j) == InRange(Less) &&
                  forall k :: j < k < time ==> source(k) == InRange(Equal)
  {
    PastDecisiveFinds(source, time - 1, lo, Less);
  }

  /** A crossing from above to below at `time`: the current ordering is
      `Less`, and before it, past a run of `Equal`, it was `Greater`. */
  lemma CrossGtToLtIff(source: int -> Res<Cmp>, time: int, lo: int)
    requires lo < time && !source(lo).InRange?
    ensures CrossOf(source, time, lo) == InRange(GtToLt) <==>
      source(time) == InRange(Less) &&
      exists j :: j < time && source(j) == InRange(Greater) &&
                  forall k :: j < k < time ==> source(k) == InRange(Equal)
  {
    PastDecisiveFinds(source, time - 1, lo, Greater);
  }

  /** `Cross::value`: a non-value ordering is handed on; otherwise the
      walk back from `time - 1` past `Equal`, stopped by the first
      ordering that decides or by the first index without one. */
  method CrossValue(source: int -> Res<Cmp>, time: int, ghost lo: int) returns (r: Res<CrossState>)
    requires lo < time && !source(lo).InRange?
    ensures r == CrossOf(source, time, lo)
  {
    var current := source(time);
    if !current.InRange? {
      return Forward(current);
    }
    if current.v != Equal {
      var i := time - 1;
      while source(i).InRange?
        invariant lo <= i <= time - 1
        invariant PastDecisive(source, time - 1, lo) == PastDecisive(source, i, lo)
        decreases i - lo
      {
        var past := source(i).v;
        if past == Greater && current.v == Less {
          return InRange(GtToLt);
        } else if past == Less && current.v == Greater {
          return InRange(LtToGt);
        } else if past == current.v {
          return InRange(NotCrossed);
        }
        i := i - 1;
      }
    }
    r := InRange(NotCrossed);
  }

  /** The cross test: [0, 0, 2, 2, 0, 1, 1, 2, 1, 0] against all 1s. */
  method CrossExample() returns (rs: seq<Res<CrossState>>)
    ensures rs == [InRange(NotCrossed), InRange(NotCrossed), InRange(LtToGt), InRange(NotCrossed),
                   InRange(GtToLt), InRange(NotCrossed), InRange(NotCrossed), InRange(LtToGt),
                   InRange(NotCrossed), InRange(GtToLt)]
  {
    var early := CrossExampleEarly();
    var late := CrossExampleLate();
    rs := early + late;
  }

  /** The orderings of the cross test: [0, 0, 2, 2, 0, 1, 1, 2, 1, 0]
      against a constant 1. */
  function TestOrderings(): int -> Res<Cmp>
  {
    CrossSource(VecIndicator.Series(0, [0.0, 0.0, 2.0, 2.0, 0.0, 1.0, 1.0, 2.0, 1.0, 0.0]),
                VecIndicator.Series(0, [1.0, 1.0, 1.0, 1.0, 1.0, 1.0, 1.0, 1.0, 1.0, 1.0]))
  }

  /** Reads 0 to 4 of the cross test. */
  method CrossExampleEarly() returns (rs: seq<Res<CrossState>>)
    ensures rs == [InRange(NotCrossed), InRange(NotCrossed), InRange(LtToGt), InRange(NotCrossed),
                   InRange(GtToLt)]
  {
    var source := TestOrderings();
    assert source(-1) == OutOfRange;
    assert source(0) == InRange(Less) && source(1) == InRange(Less);
    assert source(2) == InRange(Greater) && source(3) == InRange(Greater);
    assert source(4) == InRange(Less);
    var rs0 := CrossValue(source, 0, -1);
    var rs1 := CrossValue(source, 1, -1);
    var rs2 := CrossValue(source, 2, -1);
    var rs3 := CrossValue(source, 3, -1);
    var rs4 := CrossValue(source, 4, -1);
    rs := [rs0, rs1, rs2, rs3, rs4];
  }

  /** Reads 5 to 9 of the cross test: the walks pass over the `Equal`
      orderings at 5, 6 and 8. */
  method CrossExampleLate() returns (rs: seq<Res<CrossState>>)
    ensures rs == [InRange(NotCrossed), InRange(NotCrossed), InRange(LtToGt), InRange(NotCrossed),
                   InRange(GtToLt)]
  {
    var source := TestOrderings();
    assert source(-1) == OutOfRange;
    assert source(4) == InRange(Less) && source(5) == InRange(Equal);
    assert source(6) == InRange(Equal) && source(7) == InRange(Greater);
    assert source(8) == InRange(Equal) && source(9) == InRange(Less);
    var rs5 := CrossValue(source, 5, -1);
    var rs6 := CrossValue(source, 6, -1);
    var rs7 := CrossValue(source, 7, -1);
    var rs8 := CrossValue(source, 8, -1);
    var rs9 := CrossValue(source, 9, -1);
    rs := [rs5, rs6, rs7, rs8, rs9];
  }
}

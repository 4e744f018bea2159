/**
 * `SeqRangeTo`: the iterator that `Sequence::range_to_end` builds over an
 * index type. It walks forward one step at a time and never yields its
 * own start: the items are start+1, start+2, ... up to but not
 * including `end`.
 */
module SeqRange {

  import opened Results

  /** The items a range from `start` to `end` yields, in order. */
  function Yields(start: int, end: int): (s: seq<int>)
    ensures |s| == if end - start - 1 > 0 then end - start - 1 else 0
    ensures forall i :: 0 <= i < |s| ==> s[i] == start + 1 + i
    decreases end - start
  {
    if start + 1 >= end then [] else [start + 1] + Yields(start + 1, end)
  }

  class SeqRangeTo {
    var current: int
    const end: int

    /** `range_to_end(start, end)`. */
    constructor (start: int, end: int)
      ensures current == start && this.end == end
    {
      current := start;
      this.end := end;
    }

    /** One step: the next index while it is below `end`; once the range
        is exhausted the iterator stays where it is. */
    method Next() returns (r: Option<int>)
      modifies this
      ensures old(current) + 1 < end ==> r == Some(old(current) + 1) && current == old(current) + 1
      ensures old(current) + 1 >= end ==> r == None && current == old(current)
    {
      var next := current + 1;
      if next >= end {
        r := None;
      } else {
        current := next;
        r := Some(next);
      }
    }
  }

  /** Draining a fresh range collects exactly `Yields(start, end)`; the
      start itself is never among the items. */
  method Collect(start: int, end: int) returns (items: seq<int>)
    ensures items == Yields(start, end)
    ensures start !in items
  {
    var it := new SeqRangeTo(start, end);
    items := [];
    var done := false;
    while !done
      invariant it.end == end && start <= it.current && (it.current == start || it.current < end)
      invariant |items| == it.current - start
      invariant forall k :: 0 <= k < |items| ==> items[k] == start + 1 + k
      invariant done ==> it.current + 1 >= end
      decreases (if done then 0 else 1), end - it.current
    {
      var r := it.Next();
      match r {
        case None => done := true;
        case Some(i) => items := items + [i];
      }
    }
    assert |items| == |Yields(start, end)|;
  }
}

/**
 * `TransactionHistories`: the append-only record of a strategy's
 * transactions, looked up by transaction id (ids are taken to run on
 * from the first entry's) and by a half-open time range (times are taken
 * to increase along the record, which the binary search needs).
 */
module Transaction {

  import opened Results

  datatype LongOrShort = Long | Short

  /** Transaction times strictly increase along the record. */
  predicate TimesIncrease<T>(hs: seq<T>, timeOf: T -> int)
  {
    forall i, j :: 0 <= i < j < |hs| ==> timeOf(hs[i]) < timeOf(hs[j])
  }

  /** Transaction ids run on by one from the first entry's. */
  predicate IdsConsecutive<T>(hs: seq<T>, idOf: T -> nat)
  {
    forall i :: 0 <= i < |hs| ==> idOf(hs[i]) == idOf(hs[0]) + i
  }

  /** The answer of `binary_search_by_key`: the index of an entry with the
      key, or the index where one would be inserted. */
  datatype Search = Found(index: nat) | NotFound(index: nat)

  /** The search from entry `i` on, every entry before `i` being below the
      key. */
  function SearchFrom<T>(hs: seq<T>, timeOf: T -> int, key: int, i: nat): (r: Search)
    requires i <= |hs|
    requires forall j :: 0 <= j < i ==> timeOf(hs[j]) < key
    ensures i <= r.index <= |hs|
    ensures forall j :: 0 <= j < r.index ==> timeOf(hs[j]) < key
    ensures r.Found? ==> r.index < |hs| && timeOf(hs[r.index]) == key
    ensures r.NotFound? ==> r.index == |hs| || timeOf(hs[r.index]) > key
    decreases |hs| - i
  {
    if i == |hs| then NotFound(i)
    else if timeOf(hs[i]) == key then Found(i)
    else if timeOf(hs[i]) > key then NotFound(i)
    else SearchFrom(hs, timeOf, key, i + 1)
  }

  function BinarySearch<T>(hs: seq<T>, timeOf: T -> int, key: int): Search
  {
    SearchFrom(hs, timeOf, key, 0)
  }

  /** Over increasing times the search splits the record at the key:
      entries before its index are below the key, entries from it on are
      at or above it, and it finds the key exactly when some entry has
      it. */
  lemma SearchSplits<T>(hs: seq<T>, timeOf: T -> int, key: int)
    requires TimesIncrease(hs, timeOf)
    ensures var r := BinarySearch(hs, timeOf, key);
      (forall j :: 0 <= j < |hs| ==> (j < r.index <==> timeOf(hs[j]) < key)) &&
      (r.Found? <==> exists j :: 0 <= j < |hs| && timeOf(hs[j]) == key)
  {
    var r := BinarySearch(hs, timeOf, key);
    if r.NotFound? && r.index < |hs| {
      assert forall j :: r.index <= j < |hs| ==> timeOf(hs[r.index]) <= timeOf(hs[j]);
    }
  }

  /** `get_by_id` as written: nothing in an empty record or past the last
      id; an id below the first one makes `id - first_id` underflow, which
      panics. */
  function GetByIdAsWritten<T>(hs: seq<T>, idOf: T -> nat, id: nat): (r: Checked<Option<T>>)
    ensures r.Panic? <==> |hs| > 0 && id < idOf(hs[0])
  {
    if |hs| == 0 then Ok(None)
    else
      var firstId := idOf(hs[0]);
      if id < |hs| + firstId then
        if id < firstId then Panic else Ok(Some(hs[id - firstId]))
      else Ok(None)
  }

  /** `get_by_id` as evidently intended: an id outside the record is
      `None` on both sides. */
  function GetById<T>(hs: seq<T>, idOf: T -> nat, id: nat): Option<T>
  {
    if |hs| == 0 then None
    else
      var firstId := idOf(hs[0]);
      if firstId <= id < |hs| + firstId then Some(hs[id - firstId]) else None
  }

  /** The two agree wherever the written one does not panic. */
  lemma GetByIdAgrees<T>(hs: seq<T>, idOf: T -> nat, id: nat)
    requires !GetByIdAsWritten(hs, idOf, id).Panic?
    ensures GetByIdAsWritten(hs, idOf, id) == Ok(GetById(hs, idOf, id))
  {
  }

  /** With consecutive ids the lookup finds exactly the entries of the
      record, each by its own id. */
  lemma GetByIdFinds<T>(hs: seq<T>, idOf: T -> nat, id: nat)
    requires IdsConsecutive(hs, idOf)
    ensures GetById(hs, idOf, id).Some? <==> exists i :: 0 <= i < |hs| && idOf(hs[i]) == id
    ensures GetById(hs, idOf, id).Some? ==> idOf(GetById(hs, idOf, id).value) == id
  {
    if exists i :: 0 <= i < |hs| && idOf(hs[i]) == id {
      var i :| 0 <= i < |hs| && idOf(hs[i]) == id;
      assert idOf(hs[0]) <= id;
    }
  }

  function Identity(x: int): int { x }

  /** An id below the first one: looking up 5 in a record whose ids start
      at 10 panics as written and is `None` as intended. */
  lemma IdBelowFirstPanics()
    ensures GetByIdAsWritten([10, 11], (x: int) => if x < 0 then 0 else x, 5) == Panic
    ensures GetById([10, 11], (x: int) => if x < 0 then 0 else x, 5) == None
  {
  }

  /** `get_by_time_range` as written: the start's search index; the end's
      found index, or one before its insertion point, which underflows and
      panics when the end precedes every entry; a slice when the first
      index is below the second. */
  function GetByTimeRangeAsWritten<T>(hs: seq<T>, timeOf: T -> int, start: int, end: int): (r: Checked<Option<seq<T>>>)
  {
    var s := BinarySearch(hs, timeOf, start).index;
    var e := BinarySearch(hs, timeOf, end);
    if e.NotFound? && e.index == 0 then Panic
    else
      var ei := if e.Found? then e.index else e.index - 1;
      if s < ei then Ok(Some(hs[s..ei])) else Ok(None)
  }

  /** `get_by_time_range` as evidently intended: the entries whose time
      lies in `[start, end)`, `None` when there are none. */
  function GetByTimeRange<T>(hs: seq<T>, timeOf: T -> int, start: int, end: int): Option<seq<T>>
  {
    var s := BinarySearch(hs, timeOf, start).index;
    var e := BinarySearch(hs, timeOf, end).index;
    if s < e then Some(hs[s..e]) else None
  }

  /** Over increasing times the intended range holds exactly the entries
      whose time lies in `[start, end)`, in record order. */
  lemma GetByTimeRangeIff<T>(hs: seq<T>, timeOf: T -> int, start: int, end: int)
    requires TimesIncrease(hs, timeOf)
    ensures GetByTimeRange(hs, timeOf, start, end).Some? <==>
      exists k :: 0 <= k < |hs| && start <= timeOf(hs[k]) < end
    ensures GetByTimeRange(hs, timeOf, start, end).Some? ==>
      var xs := GetByTimeRange(hs, timeOf, start, end).value;
      var s := BinarySearch(hs, timeOf, start).index;
      xs == hs[s..s + |xs|] &&
      forall k :: 0 <= k < |hs| ==> (s <= k < s + |xs| <==> start <= timeOf(hs[k]) < end)
  {
    SearchSplits(hs, timeOf, start);
    SearchSplits(hs, timeOf, end);
    var s := BinarySearch(hs, timeOf, start).index;
    var e := BinarySearch(hs, timeOf, end).index;
    if exists k :: 0 <= k < |hs| && start <= timeOf(hs[k]) < end {
      var k :| 0 <= k < |hs| && start <= timeOf(hs[k]) < end;
      assert s <= k < e;
    }
  }

  /** When the end time is not in the record, the written range stops one
      entry short of the intended one. */
  lemma AsWrittenDropsLast<T>(hs: seq<T>, timeOf: T -> int, start: int, end: int)
    requires BinarySearch(hs, timeOf, end).NotFound? && BinarySearch(hs, timeOf, end).index > 0
    requires BinarySearch(hs, timeOf, start).index < BinarySearch(hs, timeOf, end).index
    ensures GetByTimeRange(hs, timeOf, start, end).Some?
    ensures var xs := GetByTimeRange(hs, timeOf, start, end).value;
      GetByTimeRangeAsWritten(hs, timeOf, start, end) ==
        Ok(if |xs| == 1 then None else Some(xs[..|xs| - 1]))
  {
    var s := BinarySearch(hs, timeOf, start).index;
    var e := BinarySearch(hs, timeOf, end).index;
    assert hs[s..e][..e - s - 1] == hs[s..e - 1];
  }

  /** When the end time is in the record, the written range is the
      intended one. */
  lemma AsWrittenAgreesWhenFound<T>(hs: seq<T>, timeOf: T -> int, start: int, end: int)
    requires BinarySearch(hs, timeOf, end).Found?
    ensures GetByTimeRangeAsWritten(hs, timeOf, start, end) == Ok(GetByTimeRange(hs, timeOf, start, end))
  {
  }

  /** Entries at times 0 and 10: the range `[0, 15)` misses the entry at
      10 as written; an end before every entry panics. */
  lemma TimeRangeCounterexamples()
    ensures GetByTimeRangeAsWritten([0, 10], Identity, 0, 15) == Ok(Some([0]))
    ensures GetByTimeRange([0, 10], Identity, 0, 15) == Some([0, 10])
    ensures GetByTimeRangeAsWritten([0, 10], Identity, -10, -5) == Panic
    ensures GetByTimeRange([0, 10], Identity, -10, -5) == None
  {
    var hs := [0, 10];
    assert SearchFrom(hs, Identity, 15, 1) == NotFound(2);
    assert BinarySearch(hs, Identity, 15) == NotFound(2);
    assert BinarySearch(hs, Identity, 0) == Found(0);
    assert hs[0..1] == [0] && hs[0..2] == hs;
  }

  class TransactionHistories<T> {
    var histories: seq<T>
    const idOf: T -> nat
    const timeOf: T -> int

    /** `new`: an empty record. */
    constructor (idOf: T -> nat, timeOf: T -> int)
      ensures histories == [] && this.idOf == idOf && this.timeOf == timeOf
    {
      histories := [];
      this.idOf := idOf;
      this.timeOf := timeOf;
    }

    /** `push`: appends, after which the pushed transaction's time is the
        latest. */
    method Push(t: T)
      modifies this
      ensures histories == old(histories) + [t]
      ensures LatestTime() == Some(timeOf(t))
    {
      histories := histories + [t];
    }

    /** `latest_time`: the last entry's time, `None` for an empty
        record. */
    function LatestTime(): (r: Option<int>)
      reads this
      ensures r.None? <==> histories == []
      ensures r.Some? ==> r.value == timeOf(histories[|histories| - 1])
    {
      if |histories| == 0 then None else Some(timeOf(histories[|histories| - 1]))
    }

    /** `get_by_id`, as written. */
    function GetById(id: nat): (r: Checked<Option<T>>)
      reads this
      ensures r == GetByIdAsWritten(histories, idOf, id)
    {
      GetByIdAsWritten(histories, idOf, id)
    }

    /** `get_by_time_range`, as written. */
    function GetByTimeRange(start: int, end: int): (r: Checked<Option<seq<T>>>)
      reads this
      ensures r == GetByTimeRangeAsWritten(histories, timeOf, start, end)
    {
      GetByTimeRangeAsWritten(histories, timeOf, start, end)
    }
  }

  /** Pushing keeps a record with consecutive ids and increasing times
      so, given the next id and a later time. */
  lemma PushKeepsOrder<T>(hs: seq<T>, idOf: T -> nat, timeOf: T -> int, t: T)
    requires IdsConsecutive(hs, idOf) && TimesIncrease(hs, timeOf)
    requires hs != [] ==> idOf(t) == idOf(hs[0]) + |hs| && timeOf(t) > timeOf(hs[|hs| - 1])
    ensures IdsConsecutive(hs + [t], idOf) && TimesIncrease(hs + [t], timeOf)
  {
  }
}

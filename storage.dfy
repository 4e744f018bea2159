/**
 * `Storage`: a sparse series keyed by index, filled in increasing index
 * order. Indices below `begin` are out of range, indices at or after
 * `end` are not fixed yet, and an index in between that was skipped over
 * reads as a fixed `None`.
 */
module StorageIndicator {

  import opened Results

  class Storage<V> {
    var begin: int
    var end: int
    var entries: map<int, V>

    ghost predicate Valid()
      reads this
    {
      begin <= end && forall k :: k in entries ==> begin <= k < end
    }

    /** `Storage::new(offset)`: nothing stored, everything from `offset`
        on is still to come. */
    constructor (offset: int)
      ensures Valid() && begin == offset && end == offset && entries == map[]
    {
      begin := offset;
      end := offset;
      entries := map[];
    }

    /** `Storage::from_vec(offset, vec)`: the vector's elements at
        `offset`, `offset + 1`, ...; an empty vector is `new(offset)`. */
    constructor FromVec(offset: int, xs: seq<V>)
      ensures Valid() && begin == offset && end == offset + |xs|
      ensures forall k :: offset <= k < offset + |xs| ==> k in entries && entries[k] == xs[k - offset]
      ensures forall k :: k in entries ==> offset <= k < offset + |xs|
    {
      begin := offset;
      if |xs| == 0 {
        end := offset;
        entries := map[];
      } else {
        var h: map<int, V> := map[];
        for i := 0 to |xs|
          invariant forall k :: offset <= k < offset + i ==> k in h && h[k] == xs[k - offset]
          invariant forall k :: k in h ==> offset <= k < offset + i
        {
          h := h[offset + i := xs[i]];
        }
        entries := h;
        end := offset + |xs|;
      }
    }

    /** The three-way read of a stored index. */
    function Value(i: int): (r: Res<Option<V>>)
      reads this
      requires Valid()
      ensures r.OutOfRange? <==> i < begin
      ensures r.NotFixed? <==> begin <= i && end <= i
      ensures r.InRange? ==> r.v == (if i in entries then Some(entries[i]) else None)
    {
      if i < begin then OutOfRange
      else if end <= i then NotFixed
      else InRange(if i in entries then Some(entries[i]) else None)
    }

    /** `Storage::add(seq, v)` asserts that `seq` is not before `end`: the
        series is only ever extended. */
    predicate CanAdd(i: int)
      reads this
    {
      i >= end
    }

    /** Appends `v` at `i`: `i` now reads `Some(v)`, the indices skipped
        between the old end and `i` read `None`, and every index that was
        already fixed reads as before. */
    method Add(i: int, v: V)
      requires Valid() && CanAdd(i)
      modifies this
      ensures Valid() && begin == old(begin) && end == i + 1
      ensures entries == old(entries)[i := v]
      ensures Value(i) == InRange(Some(v))
      ensures forall j :: old(end) <= j < i ==> Value(j) == InRange(None)
      ensures forall j :: j < old(end) ==> Value(j) == old(Value(j))
      ensures forall j :: j > i ==> Value(j) == NotFixed
    {
      entries := entries[i := v];
      end := i + 1;
    }
  }

  /** The from-vector test: indices 0..4 of a storage built from
      [1, 2, 3, 4, 5] at offset 0. */
  method FromVecExample() returns (r: seq<Res<Option<real>>>)
    ensures r == [InRange(Some(1.0)), InRange(Some(2.0)), InRange(Some(3.0)), InRange(Some(4.0)), InRange(Some(5.0))]
  {
    var s := new Storage.FromVec(0, [1.0, 2.0, 3.0, 4.0, 5.0]);
    r := [s.Value(0), s.Value(1), s.Value(2), s.Value(3), s.Value(4)];
  }

  /** The add test: adds at 0, 1 and 3 leave index 2 fixed as `None`
      and index 4 not fixed; after them neither 1 nor 3 may be added
      again. */
  method AddExample() returns (r: seq<Res<Option<real>>>, againAt1: bool, againAt3: bool)
    ensures r == [InRange(Some(1.0)), InRange(Some(2.0)), InRange(None), InRange(Some(3.0)), NotFixed]
    ensures !againAt1 && !againAt3
  {
    var s := new Storage(0);
    s.Add(0, 1.0);
    s.Add(1, 2.0);
    s.Add(3, 3.0);
    r := [s.Value(0), s.Value(1), s.Value(2), s.Value(3), s.Value(4)];
    againAt1 := s.CanAdd(1);
    againAt3 := s.CanAdd(3);
  }
}

/**
 * `TrailingStop`: whether a held position should be stopped out, judged
 * from the prices since the position was taken. The start of the
 * position is found by walking back while the position source holds
 * the same position; the prices are then read over the range from that
 * start to the current index.
 */
module TrailingStop {

  import opened Results
  import opened Position
  import SeqRange
  import VecIndicator

  datatype TrailingStopSignal = Continue | Stop

  /** Walking back from `i` while the position is `pos`: the first index
      of that run. `lo` is an index without a position, so the walk
      stops. */
  function RunStart(position: int -> Option<SimplePosition>, pos: SimplePosition, i: int, lo: int): (b: int)
    requires lo <= i && position(lo).None?
    ensures lo < b <= i + 1
    ensures forall k :: b <= k <= i ==> position(k) == Some(pos)
    ensures position(b - 1) != Some(pos)
    decreases i - lo
  {
    if position(i) == Some(pos) then RunStart(position, pos, i - 1, lo) else i + 1
  }

  /** `filter_map` of the price source over a list of indices. */
  function PricesIn(price: int -> Option<real>, idxs: seq<int>): seq<real>
    decreases |idxs|
  {
    if idxs == [] then []
    else
      match price(idxs[0])
      case Some(x) => [x] + PricesIn(price, idxs[1..])
      case None => PricesIn(price, idxs[1..])
  }

  /** A price is among those read exactly when one of the indices has it. */
  lemma {:induction false} PricesInHas(price: int -> Option<real>, idxs: seq<int>, x: real)
    ensures x in PricesIn(price, idxs) <==> exists j :: 0 <= j < |idxs| && price(idxs[j]) == Some(x)
    decreases |idxs|
  {
    if idxs != [] {
      PricesInHas(price, idxs[1..], x);
      if exists j :: 0 <= j < |idxs| && price(idxs[j]) == Some(x) {
        var j :| 0 <= j < |idxs| && price(idxs[j]) == Some(x);
        if j > 0 {
          assert idxs[1..][j - 1] == idxs[j];
        }
      }
      if exists j :: 0 <= j < |idxs| - 1 && price(idxs[1..][j]) == Some(x) {
        var j :| 0 <= j < |idxs| - 1 && price(idxs[1..][j]) == Some(x);
        assert idxs[j + 1] == idxs[1..][j];
      }
    }
  }

  /** The largest element; `None` for the empty list, where the source's
      fold from negative infinity compares below every price. */
  function MaxOf(xs: seq<real>): (m: Option<real>)
    ensures m.Some? <==> |xs| > 0
    ensures m.Some? ==> m.value in xs && forall x :: x in xs ==> x <= m.value
    decreases |xs|
  {
    if xs == [] then None
    else
      assert xs == [xs[0]] + xs[1..];
      match MaxOf(xs[1..])
      case None => Some(xs[0])
      case Some(m) => Some(if xs[0] > m then xs[0] else m)
  }

  /** The smallest element; `None` for the empty list. */
  function MinOf(xs: seq<real>): (m: Option<real>)
    ensures m.Some? <==> |xs| > 0
    ensures m.Some? ==> m.value in xs && forall x :: x in xs ==> m.value <= x
    decreases |xs|
  {
    if xs == [] then None
    else
      assert xs == [xs[0]] + xs[1..];
      match MinOf(xs[1..])
      case None => Some(xs[0])
      case Some(m) => Some(if xs[0] < m then xs[0] else m)
  }

  /** The decision: no position continues; a long position stops when the
      highest price exceeds the current one by more than the stop level,
      a short one when the current price exceeds the lowest by more. */
  function Decide(pos: SimplePosition, current: real, prices: seq<real>, level: real): TrailingStopSignal
  {
    match pos
    case Nothing => Continue
    case Long =>
      (match MaxOf(prices)
       case None => Continue
       case Some(m) => if m - current > level then Stop else Continue)
    case Short =>
      (match MinOf(prices)
       case None => Continue
       case Some(m) => if current - m > level then Stop else Continue)
  }

  /** A long position stops exactly when some price is above the current
      one by more than the level, a short one when some price is below it
      by more; no position never stops. */
  lemma DecideStops(pos: SimplePosition, current: real, prices: seq<real>, level: real)
    ensures pos == Long ==> (Decide(pos, current, prices, level) == Stop <==>
                             exists x :: x in prices && x - current > level)
    ensures pos == Short ==> (Decide(pos, current, prices, level) == Stop <==>
                              exists x :: x in prices && current - x > level)
    ensures pos == Nothing ==> Decide(pos, current, prices, level) == Continue
  {
  }

  /** What `TrailingStop::value` answers at `time`: `None` without a
      position or a price there; otherwise the decision over the prices
      the range from the run's first index yields, which leaves that first
      index out. */
  function TrailingStopOf(position: int -> Option<SimplePosition>, price: int -> Option<real>,
                          level: real, time: int, lo: int): Option<TrailingStopSignal>
    requires lo < time && position(lo).None?
  {
    if position(time).None? || price(time).None? then None
    else
      var begin := RunStart(position, position(time).value, time - 1, lo);
      Some(Decide(position(time).value, price(time).value,
                  PricesIn(price, SeqRange.Yields(begin, time + 1)), level))
  }

  /** `TrailingStop::value`: reads the position and the price, walks back
      to the start of the position, and decides over the prices from the
      range after it. */
  method TrailingStopValue(position: int -> Option<SimplePosition>, price: int -> Option<real>,
                           level: real, time: int, ghost lo: int) returns (r: Option<TrailingStopSignal>)
    requires lo < time && position(lo).None?
    ensures r == TrailingStopOf(position, price, level, time, lo)
  {
    var pos := position(time);
    if pos.None? {
      return None;
    }
    var current := price(time);
    if current.None? {
      return None;
    }
    var i := time - 1;
    while position(i) == Some(pos.value)
      invariant lo <= i <= time - 1
      invariant RunStart(position, pos.value, i, lo) == RunStart(position, pos.value, time - 1, lo)
      decreases i - lo
    {
      i := i - 1;
    }
    assert RunStart(position, pos.value, i, lo) == i + 1;
    var orderBegin := i + 1;
    var idxs := SeqRange.Collect(orderBegin, time + 1);
    r := Some(Decide(pos.value, current.value, PricesIn(price, idxs), level));
    assert orderBegin == RunStart(position, position(time).value, time - 1, lo);
  }

  /** The prices a range yields are the prices at the indices strictly
      after its start, up to its end. */
  lemma InRangePrices(price: int -> Option<real>, start: int, end: int, x: real)
    ensures x in PricesIn(price, SeqRange.Yields(start, end)) <==>
      exists k :: start < k < end && price(k) == Some(x)
  {
    var idxs := SeqRange.Yields(start, end);
    PricesInHas(price, idxs, x);
    if exists k :: start < k < end && price(k) == Some(x) {
      var k :| start < k < end && price(k) == Some(x);
      assert idxs[k - start - 1] == k;
    }
  }

  /** Some price of a range is above `current` by more than the level
      exactly when some index strictly after the range's start and below
      its end has such a price. */
  lemma {:induction false} HighPriceAmong(price: int -> Option<real>, start: int, end: int, current: real, level: real)
    ensures (exists x :: x in PricesIn(price, SeqRange.Yields(start, end)) && x - current > level) <==>
      exists k :: start < k < end && price(k).Some? && price(k).value - current > level
  {
    var xs := PricesIn(price, SeqRange.Yields(start, end));
    if exists x :: x in xs && x - current > level {
      var x :| x in xs && x - current > level;
      InRangePrices(price, start, end, x);
    }
    if exists k :: start < k < end && price(k).Some? && price(k).value - current > level {
      var k :| start < k < end && price(k).Some? && price(k).value - current > level;
      InRangePrices(price, start, end, price(k).value);
    }
  }

  /** The mirror of `HighPriceAmong`: some price below `current` by more
      than the level. */
  lemma {:induction false} LowPriceAmong(price: int -> Option<real>, start: int, end: int, current: real, level: real)
    ensures (exists x :: x in PricesIn(price, SeqRange.Yields(start, end)) && current - x > level) <==>
      exists k :: start < k < end && price(k).Some? && current - price(k).value > level
  {
    var xs := PricesIn(price, SeqRange.Yields(start, end));
    if exists x :: x in xs && current - x > level {
      var x :| x in xs && current - x > level;
      InRangePrices(price, start, end, x);
    }
    if exists k :: start < k < end && price(k).Some? && current - price(k).value > level {
      var k :| start < k < end && price(k).Some? && current - price(k).value > level;
      InRangePrices(price, start, end, price(k).value);
    }
  }

  /** As the source is written, a long position stops exactly when some
      price strictly after the first index of the run, up to now, is
      above the current price by more than the stop level. */
  lemma LongStopIff(position: int -> Option<SimplePosition>, price: int -> Option<real>,
                    level: real, time: int, lo: int)
    requires lo < time && position(lo).None?
    requires position(time) == Some(Long) && price(time).Some?
    ensures TrailingStopOf(position, price, level, time, lo) == Some(Stop) <==>
      exists k :: RunStart(position, Long, time - 1, lo) < k <= time &&
                  price(k).Some? && price(k).value - price(time).value > level
  {
    var begin := RunStart(position, Long, time - 1, lo);
    var xs := PricesIn(price, SeqRange.Yields(begin, time + 1));
    assert TrailingStopOf(position, price, level, time, lo) == Some(Decide(Long, price(time).value, xs, level));
    DecideStops(Long, price(time).value, xs, level);
    HighPriceAmong(price, begin, time + 1, price(time).value, level);
  }

  /** As the source is written, a short position stops exactly when some
      price strictly after the first index of the run, up to now, is
      below the current price by more than the stop level. */
  lemma ShortStopIff(position: int -> Option<SimplePosition>, price: int -> Option<real>,
                     level: real, time: int, lo: int)
    requires lo < time && position(lo).None?
    requires position(time) == Some(Short) && price(time).Some?
    ensures TrailingStopOf(position, price, level, time, lo) == Some(Stop) <==>
      exists k :: RunStart(position, Short, time - 1, lo) < k <= time &&
                  price(k).Some? && price(time).value - price(k).value > level
  {
    var begin := RunStart(position, Short, time - 1, lo);
    var xs := PricesIn(price, SeqRange.Yields(begin, time + 1));
    assert TrailingStopOf(position, price, level, time, lo) == Some(Decide(Short, price(time).value, xs, level));
    DecideStops(Short, price(time).value, xs, level);
    LowPriceAmong(price, begin, time + 1, price(time).value, level);
  }

  /** Without a position the signal is always to continue. */
  lemma NothingContinues(position: int -> Option<SimplePosition>, price: int -> Option<real>,
                         level: real, time: int, lo: int)
    requires lo < time && position(lo).None?
    requires position(time) == Some(Nothing) && price(time).Some?
    ensures TrailingStopOf(position, price, level, time, lo) == Some(Continue)
  {
  }

  /** The decision over all the prices since the position was taken, the
      first index of the run included. */
  function IntendedTrailingStop(position: int -> Option<SimplePosition>, price: int -> Option<real>,
                                level: real, time: int, lo: int): Option<TrailingStopSignal>
    requires lo < time && position(lo).None?
  {
    if position(time).None? || price(time).None? then None
    else
      var begin := RunStart(position, position(time).value, time - 1, lo);
      Some(Decide(position(time).value, price(time).value,
                  PricesIn(price, SeqRange.Yields(begin - 1, time + 1)), level))
  }

  /** With the first index included, a long position stops exactly when
      some price since the position was taken is above the current price
      by more than the stop level. */
  lemma IntendedLongStopIff(position: int -> Option<SimplePosition>, price: int -> Option<real>,
                            level: real, time: int, lo: int)
    requires lo < time && position(lo).None?
    requires position(time) == Some(Long) && price(time).Some?
    ensures IntendedTrailingStop(position, price, level, time, lo) == Some(Stop) <==>
      exists k :: RunStart(position, Long, time - 1, lo) <= k <= time &&
                  price(k).Some? && price(k).value - price(time).value > level
  {
    var begin := RunStart(position, Long, time - 1, lo);
    var xs := PricesIn(price, SeqRange.Yields(begin - 1, time + 1));
    assert IntendedTrailingStop(position, price, level, time, lo) == Some(Decide(Long, price(time).value, xs, level));
    DecideStops(Long, price(time).value, xs, level);
    HighPriceAmong(price, begin - 1, time + 1, price(time).value, level);
  }

  /** A long position taken at index 0 at price 10 and held at index 1 at
      price 5, stop level 4: the drop of 5 is not seen as written, because
      the range from the run's first index skips the price of 10. */
  lemma RunStartPriceSkipped()
    ensures var position := (i: int) => VecIndicator.VecValue([Long, Long], i);
            var price := (i: int) => VecIndicator.VecValue([10.0, 5.0], i);
            TrailingStopOf(position, price, 4.0, 1, -1) == Some(Continue) &&
            IntendedTrailingStop(position, price, 4.0, 1, -1) == Some(Stop)
  {
    var position := (i: int) => VecIndicator.VecValue([Long, Long], i);
    var price := (i: int) => VecIndicator.VecValue([10.0, 5.0], i);
    assert RunStart(position, Long, 0, -1) == 0;
    assert SeqRange.Yields(0, 2) == [1];
    assert SeqRange.Yields(-1, 2) == [0, 1];
    assert PricesIn(price, [1]) == [5.0];
    assert PricesIn(price, [0, 1]) == [10.0, 5.0];
  }

  /** The positions and prices of the trailing-stop test. */
  function AllLong(i: int): Option<SimplePosition>
  {
    VecIndicator.VecValue([Long, Long, Long, Long, Long], i)
  }

  function TestPrices(i: int): Option<real>
  {
    VecIndicator.VecValue([1.0, 2.0, -3.0, 8.0, 3.0], i)
  }

  lemma {:induction false} AllLongFromZero(t: int)
    requires -1 <= t < 5
    ensures RunStart(AllLong, Long, t, -1) == 0
    decreases t + 1
  {
    if t >= 0 {
      assert AllLong(t) == Some(Long);
      AllLongFromZero(t - 1);
    }
  }

  /** Where the test stops: at 2, 2 is more than 4 above -3; at 4, 8 is
      more than 4 above 3. */
  lemma TestStops(time: int)
    requires time == 2 || time == 4
    ensures TrailingStopOf(AllLong, TestPrices, 4.0, time, -1) == Some(Stop)
  {
    AllLongFromZero(time - 1);
    LongStopIff(AllLong, TestPrices, 4.0, time, -1);
    assert TestPrices(time - 1).value - TestPrices(time).value > 4.0;
  }

  /** Where the test continues: no earlier price of the run is more than 4
      above the current one. */
  lemma TestContinues(time: int)
    requires time == 0 || time == 1 || time == 3
    ensures TrailingStopOf(AllLong, TestPrices, 4.0, time, -1) == Some(Continue)
  {
    AllLongFromZero(time - 1);
    LongStopIff(AllLong, TestPrices, 4.0, time, -1);
    assert TestPrices(1) == Some(2.0) && TestPrices(2) == Some(-3.0) && TestPrices(3) == Some(8.0);
  }

  /** One read of the trailing-stop test: prices [1, 2, -3, 8, 3], long
      throughout, stop level 4. */
  method TestRead(time: int) returns (r: Option<TrailingStopSignal>)
    requires 0 <= time < 5
    ensures r == Some([Continue, Continue, Stop, Continue, Stop][time])
  {
    if time == 2 || time == 4 {
      TestStops(time);
    } else {
      TestContinues(time);
    }
    r := TrailingStopValue(AllLong, TestPrices, 4.0, time, -1);
  }

  /** The trailing-stop test: Continue, Continue, Stop, Continue, Stop. */
  method TrailingStopExample() returns (rs: seq<Option<TrailingStopSignal>>)
    ensures rs == [Some(Continue), Some(Continue), Some(Stop), Some(Continue), Some(Stop)]
  {
    var r0 := TestRead(0);
    var r1 := TestRead(1);
    var r2 := TestRead(2);
    var r3 := TestRead(3);
    var r4 := TestRead(4);
    rs := [r0, r1, r2, r3, r4];
  }
}

/**
 * `Sma`: the simple moving average of an `Option` source over the
 * `period` indices ending at the queried one.
 */
module Sma {

  import opened Results
  import VecIndicator

  /** The sum of `source` over the `n` indices from `lo`, or `None` when
      one of them has no value. */
  function WindowSum(source: int -> Option<real>, lo: int, n: nat): Option<real>
    decreases n
  {
    if n == 0 then Some(0.0)
    else
      match source(lo)
      case None => None
      case Some(v) =>
        match WindowSum(source, lo + 1, n - 1)
        case None => None
        case Some(s) => Some(v + s)
  }

  /** A window sums to a value exactly when every index in it has one. */
  lemma {:induction false} WindowSumSomeIff(source: int -> Option<real>, lo: int, n: nat)
    ensures WindowSum(source, lo, n).Some? <==> forall k :: lo <= k < lo + n ==> source(k).Some?
    decreases n
  {
    if n > 0 {
      WindowSumSomeIff(source, lo + 1, n - 1);
    }
  }

  /** `Sma::value`: walks the window `[index + 1 - period, index]` from the
      top down, giving up at the first index without a value, and divides
      the sum by the period. */
  method SmaValue(source: int -> Option<real>, period: nat, index: int) returns (r: Option<real>)
    requires period >= 1
    ensures r == MapOption(WindowSum(source, index + 1 - period, period), (s: real) => s / period as real)
    ensures r.Some? <==> forall k :: index + 1 - period <= k <= index ==> source(k).Some?
  {
    var sum := 0.0;
    var begin := index + 1 - period;
    var i := index;
    WindowSumSomeIff(source, begin, period);
    while i >= begin
      invariant begin - 1 <= i <= index
      invariant WindowSum(source, i + 1, index - i) == Some(sum)
    {
      var v := source(i);
      if v.None? {
        return None;
      }
      sum := v.value + sum;
      i := i - 1;
    }
    r := Some(sum / period as real);
  }

  /** The source of the SMA test: [1..5] from index 0. */
  function TestSource(i: int): Option<real>
  {
    VecIndicator.VecValue([1.0, 2.0, 3.0, 4.0, 5.0], i)
  }

  /** The full windows of the SMA test sum to 6, 9 and 12. */
  lemma TestWindows()
    ensures WindowSum(TestSource, 0, 3) == Some(6.0)
    ensures WindowSum(TestSource, 1, 3) == Some(9.0)
    ensures WindowSum(TestSource, 2, 3) == Some(12.0)
  {
    assert WindowSum(TestSource, 4, 1) == Some(5.0);
    assert WindowSum(TestSource, 3, 2) == Some(9.0);
    assert WindowSum(TestSource, 3, 1) == Some(4.0);
    assert WindowSum(TestSource, 2, 2) == Some(7.0);
    assert WindowSum(TestSource, 2, 1) == Some(3.0);
    assert WindowSum(TestSource, 1, 2) == Some(5.0);
  }

  /** The SMA test: [1..5] with period 3 gives None, None, 2, 3, 4. */
  method SmaExample() returns (rs: seq<Option<real>>)
    ensures rs == [None, None, Some(2.0), Some(3.0), Some(4.0)]
  {
    TestWindows();
    assert TestSource(-1) == None;
    var r0 := SmaValue(TestSource, 3, 0);
    var r1 := SmaValue(TestSource, 3, 1);
    var r2 := SmaValue(TestSource, 3, 2);
    var r3 := SmaValue(TestSource, 3, 3);
    var r4 := SmaValue(TestSource, 3, 4);
    rs := [r0, r1, r2, r3, r4];
  }
}

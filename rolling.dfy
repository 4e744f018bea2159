/**
 * Rolling windows: a fixed-size window of a source, its sum and mean, and
 * the `Rolling` indicator that applies a window function to the window
 * ending at each index.
 */
module Rolling {

  import opened Results
  import VecIndicator

  /** Adds `c` to a value; a non-value is handed on. */
  function Shift(r: Res<real>, c: real): (out: Res<real>)
    ensures out.InRange? <==> r.InRange?
    ensures out.InRange? ==> out.v == c + r.v
    ensures !r.InRange? ==> out == r
  {
    match r
    case InRange(x) => InRange(c + x)
    case _ => r
  }

  /** The sum of `source` over the `n` indices from `lo`, or the first
      non-value met going up from `lo`. */
  function WindowSum(source: int -> Res<real>, lo: int, n: nat): Res<real>
    decreases n
  {
    if n == 0 then InRange(0.0)
    else if source(lo).InRange? then Shift(WindowSum(source, lo + 1, n - 1), source(lo).v)
    else source(lo)
  }

  /** A window sums to a value exactly when every index in it has one;
      otherwise the sum is the non-value at the lowest index without a
      value. */
  lemma {:induction false} WindowSumFirstNonValue(source: int -> Res<real>, lo: int, n: nat)
    ensures WindowSum(source, lo, n).InRange? <==> forall k :: lo <= k < lo + n ==> source(k).InRange?
    ensures !WindowSum(source, lo, n).InRange? ==>
      exists j :: lo <= j < lo + n && WindowSum(source, lo, n) == source(j) &&
                  forall k :: lo <= k < j ==> source(k).InRange?
    decreases n
  {
    if n > 0 && source(lo).InRange? {
      WindowSumFirstNonValue(source, lo + 1, n - 1);
      if !WindowSum(source, lo, n).InRange? {
        var j :| lo + 1 <= j < lo + n && WindowSum(source, lo + 1, n - 1) == source(j) &&
                 forall k :: lo + 1 <= k < j ==> source(k).InRange?;
        assert WindowSum(source, lo, n) == source(j);
      }
    } else if n > 0 {
      assert WindowSum(source, lo, n) == source(lo);
    }
  }

  /** `FixedSizeWindow::sum`: adds `size` values from `offset` up, and
      hands on the first non-value it meets. */
  method Sum(source: int -> Res<real>, offset: int, size: nat) returns (r: Res<real>)
    ensures r == WindowSum(source, offset, size)
  {
    var i := offset;
    var sum := 0.0;
    var end := offset + size;
    while i < end
      invariant offset <= i <= end
      invariant WindowSum(source, offset, size) == Shift(WindowSum(source, i, end - i), sum)
    {
      var v := source(i);
      if !v.InRange? {
        return v;
      }
      assert Shift(Shift(WindowSum(source, i + 1, end - i - 1), v.v), sum)
          == Shift(WindowSum(source, i + 1, end - i - 1), sum + v.v);
      sum := sum + v.v;
      i := i + 1;
    }
    r := InRange(sum);
  }

  /** The mean of a window: the sum divided by the size, a non-value
      handed on. */
  function WindowMean(source: int -> Res<real>, lo: int, n: nat): Res<real>
    requires n >= 1
  {
    MapRes(WindowSum(source, lo, n), (s: real) => s / n as real)
  }

  /** `FixedSizeWindow::mean`. */
  method Mean(source: int -> Res<real>, offset: int, size: nat) returns (r: Res<real>)
    requires size >= 1
    ensures r == WindowMean(source, offset, size)
  {
    var s := Sum(source, offset, size);
    r := MapRes(s, (v: real) => v / size as real);
  }

  /** The window functions a `Rolling` is built with. */
  datatype WindowFunc = SumOf | MeanOf

  /** A `Rolling` indicator: the window size and the window function. */
  datatype Rolling = Rolling(size: nat, func: WindowFunc)
  {
    predicate WellFormed()
    {
      func.MeanOf? ==> size >= 1
    }
  }

  /** The rolling result at `at`: the window function over the `size`
      indices ending at `at`. */
  function RollingOf(rolling: Rolling, source: int -> Res<real>, at: int): Res<real>
    requires rolling.WellFormed()
  {
    match rolling.func
    case SumOf => WindowSum(source, at + 1 - rolling.size, rolling.size)
    case MeanOf => WindowMean(source, at + 1 - rolling.size, rolling.size)
  }

  /** `Rolling::value`: the window that starts at `at + 1 - size`. */
  method RollingValue(rolling: Rolling, source: int -> Res<real>, at: int) returns (r: Res<real>)
    requires rolling.WellFormed()
    ensures r == RollingOf(rolling, source, at)
    ensures r.InRange? <==> forall k :: at + 1 - rolling.size <= k <= at ==> source(k).InRange?
  {
    WindowSumFirstNonValue(source, at + 1 - rolling.size, rolling.size);
    match rolling.func
    case SumOf =>
      r := Sum(source, at + 1 - rolling.size, rolling.size);
    case MeanOf =>
      r := Mean(source, at + 1 - rolling.size, rolling.size);
  }

  /** The rolling-sum test: size 3 over [1..5] gives out of range twice,
      then 6, 9, 12. */
  method RollingSumExample() returns (rs: seq<Res<real>>)
    ensures rs == [OutOfRange, OutOfRange, InRange(6.0), InRange(9.0), InRange(12.0)]
  {
    var source := VecIndicator.Series(0, [1.0, 2.0, 3.0, 4.0, 5.0]);
    var rolling := Rolling(3, SumOf);
    assert WindowSum(source, 4, 1) == InRange(5.0);
    assert WindowSum(source, 3, 2) == InRange(9.0);
    assert WindowSum(source, 2, 3) == InRange(12.0);
    assert WindowSum(source, 3, 1) == InRange(4.0);
    assert WindowSum(source, 2, 2) == InRange(7.0);
    assert WindowSum(source, 1, 3) == InRange(9.0);
    assert WindowSum(source, 2, 1) == InRange(3.0);
    assert WindowSum(source, 1, 2) == InRange(5.0);
    assert WindowSum(source, 0, 3) == InRange(6.0);
    assert WindowSum(source, -2, 3) == OutOfRange;
    assert WindowSum(source, -1, 3) == OutOfRange;
    var r0 := RollingValue(rolling, source, 0);
    var r1 := RollingValue(rolling, source, 1);
    var r2 := RollingValue(rolling, source, 2);
    var r3 := RollingValue(rolling, source, 3);
    var r4 := RollingValue(rolling, source, 4);
    rs := [r0, r1, r2, r3, r4];
  }
}

/**
 * Granularities and timestamps.
 *
 * A granularity fixes the bar length in seconds and says which Unix
 * timestamps are bar boundaries. The three static granularities decide
 * this from the UTC calendar fields of the timestamp (second of the
 * minute, hour and minute of the day); `Var(d)` is the FFI granularity
 * of `d` seconds, valid where `d` divides the timestamp. `Time` is a
 * timestamp paired with its granularity; it must be a boundary.
 */
module TimeGranularity {

  import Results

  datatype Granularity = S5 | S10 | D1 | Var(d: int)

  /** `VarGranularity::new` / `Var::new` assert a non-zero duration. */
  predicate WellFormed(g: Granularity) {
    g.Var? ==> g.d != 0
  }

  function UnitDuration(g: Granularity): int {
    match g
    case S5 => 5
    case S10 => 10
    case D1 => 60 * 60 * 24
    case Var(d) => d
  }

  /** Calendar fields of a Unix timestamp in UTC. The calendar floors
      negative timestamps, which is Dafny's Euclidean `%` and `/`. */
  function SecondOf(t: int): int { t % 60 }
  function MinuteOf(t: int): int { (t % 3600) / 60 }
  function HourOf(t: int): int { (t % 86400) / 3600 }

  /** Rust's `%` on `i64`, which truncates toward zero (the remainder
      takes the sign of the dividend). */
  function RustRem(a: int, b: int): (r: int)
    requires b != 0
    ensures a >= 0 ==> 0 <= r < (if b > 0 then b else -b)
    ensures a < 0 ==> -(if b > 0 then b else -b) < r <= 0
    ensures (a - r) % (if b > 0 then b else -b) == 0
  {
    var m := if b > 0 then b else -b;
    if a >= 0 then
      RemLeavesMultiple(a, m);
      a % m
    else
      RemLeavesMultiple(-a, m);
      ModNegZero(-a - (-a) % m, m);
      -((-a) % m)
  }

  /** Taking away the remainder leaves a multiple of the divisor. */
  lemma RemLeavesMultiple(a: int, m: int)
    requires m > 0
    ensures (a - a % m) % m == 0
  {
    var q := a / m;
    assert a - a % m == 0 + m * q;
    ModShift(0, m, q);
  }

  predicate IsValid(g: Granularity, t: int)
    requires WellFormed(g)
  {
    match g
    case S5 => SecondOf(t) % 5 == 0
    case S10 => SecondOf(t) % 10 == 0
    case D1 => HourOf(t) == 0 && MinuteOf(t) == 0 && SecondOf(t) == 0
    case Var(d) => RustRem(t, d) == 0
  }

  lemma MulAtLeast(k: int, x: int)
    requires k > 0 && x >= 1
    ensures k * x >= k
  {
  }

  /** Euclidean division is unique: a decomposition `t == k * q + r`
      with `0 <= r < k` is the quotient and the remainder. */
  lemma DivModUnique(t: int, k: int, q: int, r: int)
    requires k > 0 && 0 <= r < k && t == k * q + r
    ensures t / k == q && t % k == r
  {
    var q0, r0 := t / k, t % k;
    assert t == k * q0 + r0;
    var x := q - q0;
    assert k * x == r0 - r;
    if x >= 1 {
      MulAtLeast(k, x);
    } else if x <= -1 {
      assert k * (-x) == -(k * x);
      MulAtLeast(k, -x);
    }
    assert x == 0;
  }

  lemma ModShift(t: int, k: int, n: int)
    requires k > 0
    ensures (t + k * n) % k == t % k
  {
    var q := t / k;
    assert t == k * q + t % k;
    assert t + k * n == k * (q + n) + t % k;
    DivModUnique(t + k * n, k, q + n, t % k);
  }

  lemma ModNegZero(a: int, k: int)
    requires k > 0
    ensures (-a) % k == 0 <==> a % k == 0
  {
    var q := a / k;
    assert a == k * q + a % k;
    if a % k == 0 {
      assert -a == k * (-q) + 0;
      DivModUnique(-a, k, -q, 0);
    }
    var p := (-a) / k;
    assert -a == k * p + (-a) % k;
    if (-a) % k == 0 {
      assert a == k * (-p) + 0;
      DivModUnique(a, k, -p, 0);
    }
  }

  lemma ModFold(t: int, m: int, k: int)
    requires m > 0 && k > 0 && m % k == 0
    ensures (t % m) % k == t % k
  {
    var q, r := t / m, t % m;
    assert t == m * q + r;
    var j := m / k;
    assert m == k * j + 0;
    assert m * q == k * (j * q);
    var r1, r2 := r / k, r % k;
    assert r == k * r1 + r2;
    assert t == k * (j * q + r1) + r2;
    DivModUnique(t, k, j * q + r1, r2);
  }

  function Abs(x: int): int { if x < 0 then -x else x }

  lemma RustRemZero(a: int, b: int)
    requires b != 0
    ensures RustRem(a, b) == 0 <==> a % Abs(b) == 0
  {
    if a < 0 {
      ModNegZero(a, Abs(b));
    }
  }

  /** The calendar tests of the static granularities agree with plain
      divisibility of the timestamp. */
  lemma ValidS5Iff(t: int)
    ensures IsValid(S5, t) <==> t % 5 == 0
  {
    ModFold(t, 60, 5);
  }

  lemma ValidS10Iff(t: int)
    ensures IsValid(S10, t) <==> t % 10 == 0
  {
    ModFold(t, 60, 10);
  }

  lemma ValidD1Iff(t: int)
    ensures IsValid(D1, t) <==> t % 86400 == 0
  {
    var s := t % 86400;
    ModFold(t, 86400, 3600);
    ModFold(t, 86400, 60);
    if HourOf(t) == 0 && MinuteOf(t) == 0 && SecondOf(t) == 0 {
      assert s < 3600;
      assert s % 3600 == t % 3600;
      assert s < 60;
      assert s == s % 60 == t % 60;
    }
  }

  lemma ValidVarIff(t: int, d: int)
    requires d != 0
    ensures IsValid(Var(d), t) <==> t % Abs(d) == 0
  {
    RustRemZero(t, d);
  }

  /** Every valid timestamp of a coarser static granularity is valid for
      the finer ones. */
  lemma CoarserIsFiner(t: int)
    ensures IsValid(D1, t) ==> IsValid(S10, t)
    ensures IsValid(S10, t) ==> IsValid(S5, t)
  {
    ValidD1Iff(t);
    ValidS10Iff(t);
    ValidS5Iff(t);
    ModFold(t, 86400, 10);
    ModFold(t, 10, 5);
  }

  /** A timestamp that is a boundary of its own granularity. */
  datatype Time = Time(timestamp: int, granularity: Granularity)

  predicate TimeValid(tm: Time) {
    WellFormed(tm.granularity) && IsValid(tm.granularity, tm.timestamp)
  }

  /** `Time::new` asserts (in debug builds) that the timestamp is a
      boundary of the granularity. */
  function NewTime(t: int, g: Granularity): (tm: Time)
    requires WellFormed(g) && IsValid(g, t)
    ensures TimeValid(tm) && tm.timestamp == t && tm.granularity == g
  {
    Time(t, g)
  }

  /** Whether `t` is a boundary of `g`, as the divisibility the calendar
      test amounts to. */
  lemma ValidIffDivides(g: Granularity, t: int)
    requires WellFormed(g)
    ensures IsValid(g, t) <==> t % Abs(UnitDuration(g)) == 0
  {
    match g
    case S5 => ValidS5Iff(t);
    case S10 => ValidS10Iff(t);
    case D1 => ValidD1Iff(t);
    case Var(d) => ValidVarIff(t, d);
  }

  lemma ShiftByUnits(t: int, u: int, n: int)
    requires u != 0
    ensures (t + u * n) % Abs(u) == t % Abs(u)
  {
    if u > 0 {
      ModShift(t, u, n);
    } else {
      assert u * n == Abs(u) * (-n);
      ModShift(t, Abs(u), -n);
    }
  }

  /** Moving a boundary by whole units of its granularity gives a
      boundary again. */
  lemma StepStaysValid(tm: Time, n: int)
    requires TimeValid(tm)
    ensures IsValid(tm.granularity, tm.timestamp + UnitDuration(tm.granularity) * n)
  {
    var g := tm.granularity;
    ValidIffDivides(g, tm.timestamp);
    ValidIffDivides(g, tm.timestamp + UnitDuration(g) * n);
    ShiftByUnits(tm.timestamp, UnitDuration(g), n);
  }

  /** `Time + n`: `n` bars later; the sum is again a boundary, so the
      assertion inside `Time::new` always holds. */
  function AddSteps(tm: Time, n: int): (r: Time)
    requires TimeValid(tm)
    ensures TimeValid(r) && r.granularity == tm.granularity
    ensures r.timestamp - tm.timestamp == UnitDuration(tm.granularity) * n
  {
    StepStaysValid(tm, n);
    NewTime(tm.timestamp + UnitDuration(tm.granularity) * n, tm.granularity)
  }

  /** `Time - n`: `n` bars earlier. */
  function SubSteps(tm: Time, n: int): (r: Time)
    requires TimeValid(tm)
    ensures TimeValid(r) && r.granularity == tm.granularity
    ensures tm.timestamp - r.timestamp == UnitDuration(tm.granularity) * n
  {
    var u := UnitDuration(tm.granularity);
    StepStaysValid(tm, -n);
    assert tm.timestamp + u * (-n) == tm.timestamp - u * n;
    NewTime(tm.timestamp - u * n, tm.granularity)
  }

  lemma AddThenSub(tm: Time, n: int)
    requires TimeValid(tm)
    ensures SubSteps(AddSteps(tm, n), n) == tm
  {
  }

  /** `Time::try_into`: re-labels the timestamp with another granularity,
      which succeeds exactly when the timestamp is a boundary of it. */
  function TryInto(tm: Time, g2: Granularity): (r: Results.Option<Time>)
    requires WellFormed(g2)
    ensures r.Some? <==> IsValid(g2, tm.timestamp)
    ensures r.Some? ==> r.value.timestamp == tm.timestamp && r.value.granularity == g2 && TimeValid(r.value)
  {
    if IsValid(g2, tm.timestamp) then Results.Some(NewTime(tm.timestamp, g2)) else Results.None
  }

  /** The concrete cases of the time tests; 1546300800 is
      2019-01-01T00:00:00Z. */
  lemma TimeExamples()
    ensures IsValid(S5, 1546300800) && !IsValid(S5, 1546300801)
    ensures IsValid(D1, 1546300800) && !IsValid(D1, 1546300800 + 3600)
    ensures IsValid(Var(7), 1546300800 + 7 * 3600 + 5) && !IsValid(Var(7), 1546300800)
    ensures AddSteps(Time(1546300800, S5), 1).timestamp == 1546300805
    ensures AddSteps(Time(1546300800, S5), 2).timestamp == 1546300810
    ensures TryInto(Time(1546300800, S5), D1) == Results.Some(Time(1546300800, D1))
    ensures TryInto(Time(1546300800 + 3605, S5), D1) == Results.None
  {
    ValidS5Iff(1546300800);
    ValidS5Iff(1546300801);
    ValidD1Iff(1546300800);
    ValidD1Iff(1546300800 + 3600);
    ValidD1Iff(1546300800 + 3605);
    ValidVarIff(1546300800 + 7 * 3600 + 5, 7);
    ValidVarIff(1546300800, 7);
  }
}

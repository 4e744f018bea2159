/**
 * `Zone`: which band around a price a price lies in. Positive lines are
 * bands above (innermost first), negative lines bands below; zone `i`
 * above means the price passed the first `i` positive lines, zone `-i`
 * below the first `i` negative lines, zone 0 neither. `up_down` is the
 * direction of the last change of a source.
 */
module Zone {

  import opened Results
  import Slope
  import VecIndicator

  /** `check_positive` from line `i` on, at a price `p` that has a value:
      the first line at or above the price decides (`None` when it is the
      innermost line, its index otherwise); a line without a value is
      handed on; a price above every line is in the outermost zone. */
  function PositiveFrom(p: real, lines: seq<int -> Res<real>>, at: int, i: nat): (r: Res<Option<int>>)
    requires i <= |lines|
    ensures r.InRange? && r.v.Some? ==> i <= r.v.value <= |lines|
    decreases |lines| - i
  {
    if i == |lines| then InRange(Some(|lines|))
    else if !lines[i](at).InRange? then Forward(lines[i](at))
    else if p <= lines[i](at).v then (if i == 0 then InRange(None) else InRange(Some(i)))
    else PositiveFrom(p, lines, at, i + 1)
  }

  /** `check_negative` from line `i` on: the mirror image, with the
      indices negated. */
  function NegativeFrom(p: real, lines: seq<int -> Res<real>>, at: int, i: nat): (r: Res<Option<int>>)
    requires i <= |lines|
    ensures r.InRange? && r.v.Some? ==> -|lines| <= r.v.value <= -(i as int)
    decreases |lines| - i
  {
    if i == |lines| then InRange(Some(-|lines|))
    else if !lines[i](at).InRange? then Forward(lines[i](at))
    else if lines[i](at).v <= p then (if i == 0 then InRange(None) else InRange(Some(-(i as int))))
    else NegativeFrom(p, lines, at, i + 1)
  }

  function CheckPositiveOf(price: int -> Res<real>, lines: seq<int -> Res<real>>, at: int): Res<Option<int>>
  {
    if !price(at).InRange? then Forward(price(at)) else PositiveFrom(price(at).v, lines, at, 0)
  }

  function CheckNegativeOf(price: int -> Res<real>, lines: seq<int -> Res<real>>, at: int): Res<Option<int>>
  {
    if !price(at).InRange? then Forward(price(at)) else NegativeFrom(price(at).v, lines, at, 0)
  }

  /** With every line at a value, the positive check finds zone `z` exactly
      when the price is above the lines before `z` and at or below line
      `z` (or above all of them); `None` is the case of the innermost
      line. */
  lemma {:induction false} PositiveFromIff(p: real, lines: seq<int -> Res<real>>, at: int, i: nat, z: int)
    requires i <= |lines|
    requires forall j :: i <= j < |lines| ==> lines[j](at).InRange?
    ensures PositiveFrom(p, lines, at, i) == InRange(Some(z)) <==>
      i <= z <= |lines| && (z >= 1 || lines == []) &&
      (forall j :: i <= j < z ==> lines[j](at).v < p) &&
      (z < |lines| ==> p <= lines[z](at).v)
    decreases |lines| - i
  {
    if i < |lines| && p > lines[i](at).v {
      PositiveFromIff(p, lines, at, i + 1, z);
    }
  }

  /** The mirror image for the negative check. */
  lemma {:induction false} NegativeFromIff(p: real, lines: seq<int -> Res<real>>, at: int, i: nat, z: int)
    requires i <= |lines|
    requires forall j :: i <= j < |lines| ==> lines[j](at).InRange?
    ensures NegativeFrom(p, lines, at, i) == InRange(Some(-z)) <==>
      i <= z <= |lines| && (z >= 1 || lines == []) &&
      (forall j :: i <= j < z ==> p < lines[j](at).v) &&
      (z < |lines| ==> lines[z](at).v <= p)
    decreases |lines| - i
  {
    if i < |lines| && lines[i](at).v > p {
      NegativeFromIff(p, lines, at, i + 1, z);
    }
  }

  /** `check_positive`: walks the positive lines outwards and returns at
      the first line at or above the price. */
  method CheckPositive(price: int -> Res<real>, lines: seq<int -> Res<real>>, at: int) returns (r: Res<Option<int>>)
    ensures r == CheckPositiveOf(price, lines, at)
  {
    var p := price(at);
    if !p.InRange? {
      return Forward(p);
    }
    var i := 0;
    while i < |lines|
      invariant 0 <= i <= |lines|
      invariant PositiveFrom(p.v, lines, at, 0) == PositiveFrom(p.v, lines, at, i)
    {
      var value := lines[i](at);
      if !value.InRange? {
        return Forward(value);
      }
      if p.v <= value.v {
        if i == 0 {
          return InRange(None);
        } else {
          return InRange(Some(i));
        }
      }
      i := i + 1;
    }
    r := InRange(Some(|lines|));
  }

  /** `check_negative`: walks the negative lines outwards and returns at
      the first line at or below the price. */
  method CheckNegative(price: int -> Res<real>, lines: seq<int -> Res<real>>, at: int) returns (r: Res<Option<int>>)
    ensures r == CheckNegativeOf(price, lines, at)
  {
    var p := price(at);
    if !p.InRange? {
      return Forward(p);
    }
    var i := 0;
    while i < |lines|
      invariant 0 <= i <= |lines|
      invariant NegativeFrom(p.v, lines, at, 0) == NegativeFrom(p.v, lines, at, i)
    {
      var value := lines[i](at);
      if !value.InRange? {
        return Forward(value);
      }
      if value.v <= p.v {
        if i == 0 {
          return InRange(None);
        } else {
          return InRange(Some(-i));
        }
      }
      i := i + 1;
    }
    r := InRange(Some(-|lines|));
  }

  /** What `Zone::value` answers: the positive check's non-value, then the
      negative check's; the one side that found a zone, zone 0 when
      neither did, and a panic when both did. */
  function ZoneOf(price: int -> Res<real>, positive: seq<int -> Res<real>>, negative: seq<int -> Res<real>>,
                  at: int): Checked<Res<int>>
  {
    var pz := CheckPositiveOf(price, positive, at);
    if !pz.InRange? then Ok(Forward(pz))
    else
      var nz := CheckNegativeOf(price, negative, at);
      if !nz.InRange? then Ok(Forward(nz))
      else if pz.v.Some? && nz.v.Some? then Panic
      else if pz.v.Some? then Ok(InRange(pz.v.value))
      else if nz.v.Some? then Ok(InRange(nz.v.value))
      else Ok(InRange(0))
  }

  /** `Zone::value`; a zone it finds lies between `-|negative|` and
      `|positive|`. */
  method ZoneValue(price: int -> Res<real>, positive: seq<int -> Res<real>>, negative: seq<int -> Res<real>>,
                   at: int) returns (r: Checked<Res<int>>)
    ensures r == ZoneOf(price, positive, negative, at)
    ensures r.Ok? && r.value.InRange? ==> -|negative| <= r.value.v <= |positive|
  {
    var pz := CheckPositive(price, positive, at);
    if !pz.InRange? {
      return Ok(Forward(pz));
    }
    var nz := CheckNegative(price, negative, at);
    if !nz.InRange? {
      return Ok(Forward(nz));
    }
    match (pz.v, nz.v)
    case (Some(_), Some(_)) => r := Panic;
    case (Some(z), None) => r := Ok(InRange(z));
    case (None, Some(z)) => r := Ok(InRange(z));
    case (None, None) => r := Ok(InRange(0));
  }

  /** Bands that do not cross: when the innermost positive line is not
      below the innermost negative one, a price is never past both, so
      `Zone::value` does not panic. */
  lemma OrderedBandsNeverPanic(price: int -> Res<real>, positive: seq<int -> Res<real>>,
                               negative: seq<int -> Res<real>>, at: int)
    requires |positive| > 0 && |negative| > 0
    requires positive[0](at).InRange? && negative[0](at).InRange?
    requires negative[0](at).v <= positive[0](at).v
    ensures ZoneOf(price, positive, negative, at).Ok?
  {
  }

  /** The zone test's price and bands: ±1 and ±2 lines around a rising
      price. */
  function TestPrice(i: int): Res<real> { VecIndicator.SeriesValue(0, [1.0, 2.15, 2.85, 4.3, 4.7], i) }
  function Plus2(i: int): Res<real> { VecIndicator.SeriesValue(0, [1.2, 2.2, 3.2, 4.2, 5.2], i) }
  function Plus1(i: int): Res<real> { VecIndicator.SeriesValue(0, [1.1, 2.1, 3.1, 4.1, 5.1], i) }
  function Minus1(i: int): Res<real> { VecIndicator.SeriesValue(0, [0.9, 1.9, 2.9, 3.9, 4.9], i) }
  function Minus2(i: int): Res<real> { VecIndicator.SeriesValue(0, [0.8, 1.8, 2.8, 3.8, 4.8], i) }

  /** The zone test: 0, 1, -1, 2, -2. */
  method ZoneExample() returns (rs: seq<Checked<Res<int>>>)
    ensures rs == [Ok(InRange(0)), Ok(InRange(1)), Ok(InRange(-1)), Ok(InRange(2)), Ok(InRange(-2))]
  {
    var positive := [Plus1, Plus2];
    var negative := [Minus1, Minus2];
    assert PositiveFrom(2.15, positive, 1, 1) == InRange(Some(1));
    assert NegativeFrom(2.85, negative, 2, 1) == InRange(Some(-1));
    assert PositiveFrom(4.3, positive, 3, 1) == InRange(Some(2));
    assert NegativeFrom(4.7, negative, 4, 1) == InRange(Some(-2));
    assert ZoneOf(TestPrice, positive, negative, 0) == Ok(InRange(0));
    assert ZoneOf(TestPrice, positive, negative, 1) == Ok(InRange(1));
    assert ZoneOf(TestPrice, positive, negative, 2) == Ok(InRange(-1));
    assert ZoneOf(TestPrice, positive, negative, 3) == Ok(InRange(2));
    assert ZoneOf(TestPrice, positive, negative, 4) == Ok(InRange(-2));
    var r0 := ZoneValue(TestPrice, positive, negative, 0);
    var r1 := ZoneValue(TestPrice, positive, negative, 1);
    var r2 := ZoneValue(TestPrice, positive, negative, 2);
    var r3 := ZoneValue(TestPrice, positive, negative, 3);
    var r4 := ZoneValue(TestPrice, positive, negative, 4);
    rs := [r0, r1, r2, r3, r4];
  }

  datatype UpDown = Up | Eq | Down

  /** `up_down`: a rolling window of two; the earlier index's non-value is
      handed on first, then the current one's; otherwise the sign of the
      change. */
  function UpDownValue(source: int -> Res<real>, at: int): (r: Res<UpDown>)
    ensures r.InRange? <==> source(at - 1).InRange? && source(at).InRange?
  {
    if !source(at - 1).InRange? then Forward(source(at - 1))
    else if !source(at).InRange? then Forward(source(at))
    else
      var diff := source(at).v - source(at - 1).v;
      if diff > 0.0 then InRange(Up) else if diff < 0.0 then InRange(Down) else InRange(Eq)
  }

  /** The direction is the sign of the slope. */
  lemma UpDownIsSlopeSign(source: int -> Res<real>, at: int)
    ensures UpDownValue(source, at).InRange? <==> Slope.SlopeValue(source, at).InRange?
    ensures UpDownValue(source, at) == InRange(Up) <==>
      Slope.SlopeValue(source, at).InRange? && Slope.SlopeValue(source, at).v > 0.0
    ensures UpDownValue(source, at) == InRange(Down) <==>
      Slope.SlopeValue(source, at).InRange? && Slope.SlopeValue(source, at).v < 0.0
    ensures UpDownValue(source, at) == InRange(Eq) <==>
      Slope.SlopeValue(source, at).InRange? && Slope.SlopeValue(source, at).v == 0.0
  {
  }

  function UpDownPrices(i: int): Res<real>
  {
    VecIndicator.SeriesValue(0, [1.0, 1.1, 1.0, 0.9, 0.8, 1.0, 1.1, 1.2, 1.2, 1.0], i)
  }

  /** The `up_down` test. */
  lemma UpDownExample()
    ensures UpDownValue(UpDownPrices, 0) == OutOfRange
    ensures forall i :: 1 <= i < 10 ==>
      UpDownValue(UpDownPrices, i) == InRange([Up, Up, Down, Down, Down, Up, Up, Up, Eq, Down][i])
  {
  }
}

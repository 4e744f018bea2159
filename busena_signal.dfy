/**
 * The zone strategy's lot signal: when the status flips from not entered
 * to entered, trade against the zone with a lot that grows with the
 * zone's distance from 0.
 */
module ZoneSignal {

  import opened Results
  import opened Status
  import VecIndicator

  datatype LotSignal = Nothing | Buy(lot: nat) | Sell(lot: nat)

  /** `lot_by_zone`: 10 per zone step for zones ±1 to ±5, 0 elsewhere. */
  function LotByZone(zone: int): (lot: nat)
    ensures lot != 0 <==> 1 <= AbsZone(zone) <= 5
    ensures lot != 0 ==> lot == 10 * AbsZone(zone)
  {
    match AbsZone(zone)
    case 1 => 10
    case 2 => 20
    case 3 => 30
    case 4 => 40
    case 5 => 50
    case _ => 0
  }

  /** `pips_range_by_zone`: one more than the zone's distance from 0 for
      zones ±1 to ±5, 0 elsewhere. */
  function PipsRangeByZone(zone: int): (pips: nat)
    ensures pips != 0 <==> 1 <= AbsZone(zone) <= 5
    ensures pips != 0 ==> pips == AbsZone(zone) + 1
  {
    match AbsZone(zone)
    case 1 => 2
    case 2 => 3
    case 3 => 4
    case 4 => 5
    case 5 => 6
    case _ => 0
  }

  /** Both tables ignore the side of the zone. */
  lemma TablesSymmetric(zone: int)
    ensures LotByZone(-zone) == LotByZone(zone)
    ensures PipsRangeByZone(-zone) == PipsRangeByZone(zone)
  {
    assert AbsZone(-zone) == AbsZone(zone);
  }

  /** `Signal::value`: the previous state's non-value first, then the
      current one's; a flip into the entered state sells in a positive
      zone and buys in a negative one, unless the zone has no lot. */
  function SignalValue(state: int -> Res<StatusState>, at: int): (r: Res<LotSignal>)
    ensures r.InRange? <==> state(at - 1).InRange? && state(at).InRange?
    ensures !state(at - 1).InRange? ==> r == Forward(state(at - 1))
    ensures state(at - 1).InRange? && !state(at).InRange? ==> r == Forward(state(at))
  {
    if !state(at - 1).InRange? then Forward(state(at - 1))
    else if !state(at).InRange? then Forward(state(at))
    else
      var prev := state(at - 1).v;
      var curr := state(at).v;
      if !prev.isEntried && curr.isEntried then
        var lot := LotByZone(curr.outermostZone);
        if lot != 0 then
          if curr.outermostZone > 0 then InRange(Sell(lot)) else InRange(Buy(lot))
        else InRange(Nothing)
      else InRange(Nothing)
  }

  /** A sell of `lot` is exactly an entry in a positive zone up to 5,
      with that zone's lot. */
  lemma SellIff(state: int -> Res<StatusState>, at: int, lot: nat)
    ensures SignalValue(state, at) == InRange(Sell(lot)) <==>
      state(at - 1).InRange? && state(at).InRange? &&
      !state(at - 1).v.isEntried && state(at).v.isEntried &&
      1 <= state(at).v.outermostZone <= 5 && lot == 10 * state(at).v.outermostZone
  {
  }

  /** A buy of `lot` is exactly an entry in a negative zone down to -5,
      with that zone's lot. */
  lemma BuyIff(state: int -> Res<StatusState>, at: int, lot: nat)
    ensures SignalValue(state, at) == InRange(Buy(lot)) <==>
      state(at - 1).InRange? && state(at).InRange? &&
      !state(at - 1).v.isEntried && state(at).v.isEntried &&
      -5 <= state(at).v.outermostZone <= -1 && lot == -10 * state(at).v.outermostZone
  {
  }

  /** Without a flip into the entered state there is no trade. */
  lemma NoFlipNothing(state: int -> Res<StatusState>, at: int)
    requires state(at - 1).InRange? && state(at).InRange?
    requires state(at - 1).v.isEntried || !state(at).v.isEntried
    ensures SignalValue(state, at) == InRange(Nothing)
  {
  }

  function TestStates(i: int): Res<StatusState>
  {
    VecIndicator.SeriesValue(0, [StatusState(0, false), StatusState(2, false), StatusState(2, true),
                                 StatusState(-3, false), StatusState(-3, true), StatusState(6, false),
                                 StatusState(6, true)], i)
  }

  /** A run of states: entering zone 2 sells 20, entering zone -3 buys
      30, entering zone 6 has no lot. */
  lemma SignalExample()
    ensures SignalValue(TestStates, 0) == OutOfRange
    ensures forall i :: 1 <= i < 7 ==>
      SignalValue(TestStates, i) == InRange([Nothing, Nothing, Sell(20), Nothing, Buy(30), Nothing, Nothing][i])
  {
  }
}

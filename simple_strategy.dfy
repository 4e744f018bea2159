/**
 * The SMA-cross strategy's decision and bookkeeping: the signal table
 * that turns a moving-average cross and the held position into an order
 * signal, the transaction-id and ticket-id counters, and `on_tick`, which
 * records the order fills a signal calls for.
 */
module SimpleStrategy {

  import opened Results
  import opened Transaction
  import opened Ticket
  import opened Cross
  import Position
  import TimeGranularity

  datatype SimpleSignal =
    | Nothing | OpenLong | OpenShort | CloseLong | CloseShort | CloseLongAndOpenShort | CloseShortAndOpenLong

  /** The signal table: a rising cross opens a long position (turning a
      short one round), a falling cross a short one (turning a long one
      round); anything else does nothing. */
  function SignalOf(cross: CrossState, pos: Position.SimplePosition): SimpleSignal
  {
    match (cross, pos)
    case (LtToGt, Nothing) => OpenLong
    case (GtToLt, Nothing) => OpenShort
    case (LtToGt, Short) => CloseShortAndOpenLong
    case (GtToLt, Long) => CloseLongAndOpenShort
    case _ => Nothing
  }

  /** The table never asks for a bare close, and asks for an order only on
      a cross that the position does not already follow. */
  lemma SignalTableIff(cross: CrossState, pos: Position.SimplePosition)
    ensures SignalOf(cross, pos) != CloseLong && SignalOf(cross, pos) != CloseShort
    ensures SignalOf(cross, pos) == Nothing <==>
      cross == NotCrossed || (cross == LtToGt && pos == Position.Long) || (cross == GtToLt && pos == Position.Short)
    ensures SignalOf(cross, pos) == OpenLong <==> cross == LtToGt && pos == Position.Nothing
    ensures SignalOf(cross, pos) == OpenShort <==> cross == GtToLt && pos == Position.Nothing
    ensures SignalOf(cross, pos) == CloseShortAndOpenLong <==> cross == LtToGt && pos == Position.Short
    ensures SignalOf(cross, pos) == CloseLongAndOpenShort <==> cross == GtToLt && pos == Position.Long
  {
  }

  /** An opening fill of 100 units at `price`, with ticket id `ticketId`. */
  function OpenFill(tid: int, ticketId: int, time: int, price: real, dir: LongOrShort): (t: SimpleTransaction)
    ensures t.OpenOrderFill? && t.id == tid && t.ticket.id == TicketId(ticketId)
  {
    OpenOrderFill(tid, time, SimpleTicket(TicketId(ticketId), time, 100, price, dir))
  }

  /** A closing fill of 100 units at `price`; it names the transaction
      just before it as the open it closes. */
  function CloseFill(tid: int, time: int, held: TicketId, price: real): (t: SimpleTransaction)
    ensures t.CloseOrderFill? && t.id == tid && t.openId == tid - 1 && t.ticketId == held
  {
    CloseOrderFill(tid, tid - 1, time, held, 100, price)
  }

  /** The fills a signal records, numbered from `tid` with new tickets
      from `ticketId`: a long opens at the ask and a short at the bid, a
      long closes at the bid and a short at the ask, and a turn round
      closes first, both at the same side's price. A close with no ticket
      held panics. */
  function Emitted(tid: int, ticketId: int, time: int, signal: SimpleSignal, ask: real, bid: real,
                   held: Option<TicketId>): Checked<seq<SimpleTransaction>>
  {
    match signal
    case OpenLong => Ok([OpenFill(tid, ticketId, time, ask, Long)])
    case OpenShort => Ok([OpenFill(tid, ticketId, time, bid, Short)])
    case CloseLong => if held.None? then Panic else Ok([CloseFill(tid, time, held.value, bid)])
    case CloseShort => if held.None? then Panic else Ok([CloseFill(tid, time, held.value, ask)])
    case CloseLongAndOpenShort =>
      if held.None? then Panic
      else Ok([CloseFill(tid, time, held.value, bid), OpenFill(tid + 1, ticketId, time, bid, Short)])
    case CloseShortAndOpenLong =>
      if held.None? then Panic
      else Ok([CloseFill(tid, time, held.value, ask), OpenFill(tid + 1, ticketId, time, ask, Long)])
    case Nothing => Ok([])
  }

  /** How many of `ts` open a ticket. */
  function Opens(ts: seq<SimpleTransaction>): (n: nat)
    ensures n <= |ts|
  {
    if ts == [] then 0 else (if ts[0].OpenOrderFill? then 1 else 0) + Opens(ts[1..])
  }

  lemma OpensOfFew(a: SimpleTransaction, b: SimpleTransaction)
    ensures Opens([a]) == (if a.OpenOrderFill? then 1 else 0)
    ensures Opens([a, b]) == (if a.OpenOrderFill? then 1 else 0) + (if b.OpenOrderFill? then 1 else 0)
  {
    assert [a][1..] == [];
    assert [a, b][1..] == [b];
  }

  /** The recorded fills of a signal: their ids run on from `tid`, every
      close names the fill before it and the held ticket, every open uses
      a ticket id from `ticketId` on, one per open, and closes come before
      opens. */
  lemma EmittedShape(tid: int, ticketId: int, time: int, signal: SimpleSignal, ask: real, bid: real,
                     held: Option<TicketId>)
    requires Emitted(tid, ticketId, time, signal, ask, bid, held).Ok?
    ensures var ts := Emitted(tid, ticketId, time, signal, ask, bid, held).value;
      |ts| <= 2 &&
      (forall i :: 0 <= i < |ts| ==> ts[i].id == tid + i && !ts[i].OtherTransaction?) &&
      (forall i :: 0 <= i < |ts| && ts[i].CloseOrderFill? ==>
         ts[i].openId == ts[i].id - 1 && held.Some? && ts[i].ticketId == held.value && i == 0) &&
      (forall i :: 0 <= i < |ts| && ts[i].OpenOrderFill? ==>
         ts[i].ticket.id == TicketId(ticketId) && ts[i].ticket.unit == 100 && ts[i].time == time) &&
      Opens(ts) <= 1
  {
  }

  /** Opening signals record exactly one opening fill of 100 units in the
      signal's direction. */
  lemma OpenSignalsOpenOne(tid: int, ticketId: int, time: int, ask: real, bid: real, held: Option<TicketId>)
    ensures Emitted(tid, ticketId, time, OpenLong, ask, bid, held) ==
      Ok([OpenOrderFill(tid, time, SimpleTicket(TicketId(ticketId), time, 100, ask, Long))])
    ensures Emitted(tid, ticketId, time, OpenShort, ask, bid, held) ==
      Ok([OpenOrderFill(tid, time, SimpleTicket(TicketId(ticketId), time, 100, bid, Short))])
  {
  }

  /** The fills of `ts` applied in turn to a single-ticket slot. */
  function ApplyAll(held: Option<SimpleTicket>, ts: seq<SimpleTransaction>): Checked<Option<SimpleTicket>>
    decreases |ts|
  {
    if ts == [] then Ok(held)
    else
      match Apply(held, ts[0])
      case Panic => Panic
      case Ok(next) => ApplyAll(next, ts[1..])
  }

  /** The table and the fills it records follow the cross: applied to the
      ticket slot whose position the table was given, the fills never
      panic and leave a long position after a rising cross, a short one
      after a falling cross, and the slot unchanged without a cross. */
  lemma FillsFollowCross(cross: CrossState, held: Option<SimpleTicket>, tid: int, ticketId: int, time: int,
                         ask: real, bid: real)
    ensures var signal := SignalOf(cross, AsPositionOf(held));
      var heldId := if held.Some? then Some(held.value.id) else None;
      var e := Emitted(tid, ticketId, time, signal, ask, bid, heldId);
      e.Ok? && ApplyAll(held, e.value).Ok? &&
      (cross == LtToGt ==> AsPositionOf(ApplyAll(held, e.value).value) == Position.Long) &&
      (cross == GtToLt ==> AsPositionOf(ApplyAll(held, e.value).value) == Position.Short) &&
      (cross == NotCrossed ==> ApplyAll(held, e.value).value == held)
  {
    var signal := SignalOf(cross, AsPositionOf(held));
    var heldId := if held.Some? then Some(held.value.id) else None;
    var e := Emitted(tid, ticketId, time, signal, ask, bid, heldId);
    match signal
    case OpenLong =>
      assert e.value[1..] == [];
    case OpenShort =>
      assert e.value[1..] == [];
    case CloseShortAndOpenLong =>
      assert e.value[1..][1..] == [];
      assert ApplyAll(None, e.value[1..]) == Ok(Some(e.value[1].ticket));
    case CloseLongAndOpenShort =>
      assert e.value[1..][1..] == [];
      assert ApplyAll(None, e.value[1..]) == Ok(Some(e.value[1].ticket));
    case _ =>
  }

  /** The strategy's bookkeeping: the next transaction id, the next ticket
      id and the recorded transactions. */
  datatype StrategyState = StrategyState(tidOffset: int, ticketIdOffset: int, transactions: seq<SimpleTransaction>)

  /** The state after `on_tick` at `time` with the signal pulled there: a
      time off the 5-second grid or a signal without a value changes
      nothing; otherwise the signal's fills are appended and the counters
      move past them. */
  function TickOf(s: StrategyState, time: int, signal: Res<SimpleSignal>, ask: real, bid: real,
                  held: Option<TicketId>): Checked<StrategyState>
  {
    if !TimeGranularity.IsValid(TimeGranularity.S5, time) || !signal.InRange? then Ok(s)
    else
      match Emitted(s.tidOffset, s.ticketIdOffset, time, signal.v, ask, bid, held)
      case Panic => Panic
      case Ok(ts) => Ok(StrategyState(s.tidOffset + |ts|, s.ticketIdOffset + Opens(ts), s.transactions + ts))
  }

  /** The recorded transactions are numbered on from `base`, and the next
      transaction id follows the last. */
  predicate IdsFrom(s: StrategyState, base: int)
  {
    (forall i :: 0 <= i < |s.transactions| ==> s.transactions[i].id == base + i) &&
    s.tidOffset == base + |s.transactions|
  }

  /** Every recorded opening fill uses a ticket id below the next one. */
  predicate TicketIdsIssued(s: StrategyState)
  {
    forall i :: 0 <= i < |s.transactions| && s.transactions[i].OpenOrderFill? ==>
      s.transactions[i].ticket.id.n < s.ticketIdOffset
  }

  /** A tick keeps the transaction ids consecutive and every ticket id
      issued, so ids are never reused. */
  lemma TickKeepsIds(s: StrategyState, base: int, time: int, signal: Res<SimpleSignal>, ask: real, bid: real,
                     held: Option<TicketId>)
    requires IdsFrom(s, base) && TicketIdsIssued(s)
    requires TickOf(s, time, signal, ask, bid, held).Ok?
    ensures IdsFrom(TickOf(s, time, signal, ask, bid, held).value, base)
    ensures TicketIdsIssued(TickOf(s, time, signal, ask, bid, held).value)
  {
    if TimeGranularity.IsValid(TimeGranularity.S5, time) && signal.InRange? {
      EmittedShape(s.tidOffset, s.ticketIdOffset, time, signal.v, ask, bid, held);
      var ts := Emitted(s.tidOffset, s.ticketIdOffset, time, signal.v, ask, bid, held).value;
      if ts != [] {
        assert ts[1..] == [] || ts[1..][1..] == [];
      }
    }
  }

  /** A tick off the grid, or with no signal value, records nothing. */
  lemma NoSignalNoFills(s: StrategyState, time: int, signal: Res<SimpleSignal>, ask: real, bid: real,
                        held: Option<TicketId>)
    requires !TimeGranularity.IsValid(TimeGranularity.S5, time) || !signal.InRange? || signal == InRange(Nothing)
    ensures TickOf(s, time, signal, ask, bid, held) == Ok(s)
  {
    assert s.transactions + [] == s.transactions;
  }

  class SimpleSmaCrossStrategy {
    var tidOffset: int
    var ticketIdOffset: int
    var transactions: seq<SimpleTransaction>

    /** The bookkeeping part of `new`: transaction ids from `tidOffset`,
        ticket ids from 0, nothing recorded. */
    constructor (tidOffset: int)
      ensures State() == StrategyState(tidOffset, 0, [])
    {
      this.tidOffset := tidOffset;
      ticketIdOffset := 0;
      transactions := [];
    }

    function State(): (s: StrategyState)
      reads this
      ensures s.tidOffset == tidOffset && s.ticketIdOffset == ticketIdOffset && s.transactions == transactions
    {
      StrategyState(tidOffset, ticketIdOffset, transactions)
    }

    /** `next_tid`: hands out the current transaction id and moves on by
        one. */
    method NextTid() returns (tid: int)
      modifies this
      ensures tid == old(tidOffset) && tidOffset == tid + 1
      ensures ticketIdOffset == old(ticketIdOffset) && transactions == old(transactions)
    {
      tid := tidOffset;
      tidOffset := tid + 1;
    }

    /** `next_ticket_id`: hands out the current ticket id and moves on by
        one. */
    method NextTicketId() returns (ticketId: int)
      modifies this
      ensures ticketId == old(ticketIdOffset) && ticketIdOffset == ticketId + 1
      ensures tidOffset == old(tidOffset) && transactions == old(transactions)
    {
      ticketId := ticketIdOffset;
      ticketIdOffset := ticketId + 1;
    }

    /** Records an opening fill with fresh ids. */
    method AddOpen(time: int, price: real, dir: LongOrShort)
      modifies this
      ensures State() == StrategyState(old(tidOffset) + 1, old(ticketIdOffset) + 1,
                                       old(transactions) + [OpenFill(old(tidOffset), old(ticketIdOffset), time, price, dir)])
    {
      var tid := NextTid();
      var ticketId := NextTicketId();
      transactions := transactions + [OpenFill(tid, ticketId, time, price, dir)];
    }

    /** Records a closing fill of the held ticket with a fresh transaction
        id. */
    method AddClose(time: int, held: TicketId, price: real)
      modifies this
      ensures State() == StrategyState(old(tidOffset) + 1, old(ticketIdOffset),
                                       old(transactions) + [CloseFill(old(tidOffset), time, held, price)])
    {
      var tid := NextTid();
      transactions := transactions + [CloseFill(tid, time, held, price)];
    }

    /** `on_tick`, given the signal pulled at the tick, the ask and bid
        there and the held ticket's id: reports whether it panicked, and
        otherwise moves the bookkeeping as `TickOf` says. */
    method OnTick(time: int, signal: Res<SimpleSignal>, ask: real, bid: real, held: Option<TicketId>)
      returns (panicked: bool)
      modifies this
      ensures panicked <==> TickOf(old(State()), time, signal, ask, bid, held).Panic?
      ensures !panicked ==> State() == TickOf(old(State()), time, signal, ask, bid, held).value
    {
      panicked := false;
      if !TimeGranularity.IsValid(TimeGranularity.S5, time) {
        return;
      }
      ghost var s := State();
      OpensOfFew(OpenFill(s.tidOffset, s.ticketIdOffset, time, ask, Long), OpenFill(s.tidOffset, s.ticketIdOffset, time, bid, Short));
      if held.Some? {
        OpensOfFew(CloseFill(s.tidOffset, time, held.value, bid), OpenFill(s.tidOffset + 1, s.ticketIdOffset, time, bid, Short));
        OpensOfFew(CloseFill(s.tidOffset, time, held.value, ask), OpenFill(s.tidOffset + 1, s.ticketIdOffset, time, ask, Long));
      }
      match signal {
        case InRange(sig) =>
          match sig {
            case OpenLong =>
              AddOpen(time, ask, Long);
            case OpenShort =>
              AddOpen(time, bid, Short);
            case CloseLong =>
              if held.None? {
                return true;
              }
              AddClose(time, held.value, bid);
            case CloseShort =>
              if held.None? {
                return true;
              }
              AddClose(time, held.value, ask);
            case CloseLongAndOpenShort =>
              if held.None? {
                return true;
              }
              AddClose(time, held.value, bid);
              AddOpen(time, bid, Short);
              assert transactions == s.transactions + [CloseFill(s.tidOffset, time, held.value, bid),
                                                       OpenFill(s.tidOffset + 1, s.ticketIdOffset, time, bid, Short)];
            case CloseShortAndOpenLong =>
              if held.None? {
                return true;
              }
              AddClose(time, held.value, ask);
              AddOpen(time, ask, Long);
              assert transactions == s.transactions + [CloseFill(s.tidOffset, time, held.value, ask),
                                                       OpenFill(s.tidOffset + 1, s.ticketIdOffset, time, ask, Long)];
            case Nothing =>
              assert transactions + [] == transactions;
          }
        case _ =>
      }
    }
  }

  /** Two ticks: a rising cross with nothing held opens long ticket 0 as
      transaction 10 at the ask; a falling cross then turns it round, as
      transactions 11 (closing ticket 0 at the bid, naming 10) and 12
      (opening short ticket 1 at the bid). */
  method OnTickExample() returns (ts: seq<SimpleTransaction>)
    ensures ts == [OpenOrderFill(10, 0, SimpleTicket(TicketId(0), 0, 100, 1.25, Long)),
                   CloseOrderFill(11, 10, 5, TicketId(0), 100, 1.5),
                   OpenOrderFill(12, 5, SimpleTicket(TicketId(1), 5, 100, 1.5, Short))]
  {
    var strategy := new SimpleSmaCrossStrategy(10);
    assert TimeGranularity.IsValid(TimeGranularity.S5, 0) by {
      TimeGranularity.ValidS5Iff(0);
    }
    assert TimeGranularity.IsValid(TimeGranularity.S5, 5) by {
      TimeGranularity.ValidS5Iff(5);
    }
    var p1 := strategy.OnTick(0, InRange(SignalOf(LtToGt, Position.Nothing)), 1.25, 1.0, None);
    var p2 := strategy.OnTick(5, InRange(SignalOf(GtToLt, Position.Long)), 1.75, 1.5, Some(TicketId(0)));
    ts := strategy.transactions;
  }
}

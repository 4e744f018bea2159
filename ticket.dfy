/**
 * Tickets: the id arithmetic of `TicketId`, the order-fill transactions a
 * strategy records, and `SingleSimpleTicket`, which holds at most one
 * open ticket and follows the opens and closes applied to it.
 */
module Ticket {

  import opened Results
  import opened Transaction
  import Position

  datatype TicketId = TicketId(n: int)

  /** `TicketId + n`. */
  function Add(id: TicketId, n: int): (r: TicketId)
    ensures r.n - id.n == n
  {
    TicketId(id.n + n)
  }

  /** `TicketId - n`. */
  function Sub(id: TicketId, n: int): (r: TicketId)
    ensures id.n - r.n == n
  {
    TicketId(id.n - n)
  }

  /** `distance_from`: how many steps `id` lies past `offset`. */
  function DistanceFrom(id: TicketId, offset: TicketId): (d: int)
    ensures Add(offset, d) == id
  {
    id.n - offset.n
  }

  /** Adding and then subtracting the same step count is the identity, and
      so is the reverse. */
  lemma AddSubRoundTrip(id: TicketId, n: int)
    ensures Sub(Add(id, n), n) == id
    ensures Add(Sub(id, n), n) == id
    ensures DistanceFrom(Add(id, n), id) == n
  {
  }

  /** An open ticket: its id, the open time, the unit, the open price and
      the direction. */
  datatype SimpleTicket = SimpleTicket(id: TicketId, openTime: int, unit: nat, price: real,
                                       longOrShort: LongOrShort)

  /** The transactions a strategy records: an order fill that opens a
      ticket, one that closes the ticket opened by transaction `openId`,
      and any other kind. */
  datatype SimpleTransaction =
    | OpenOrderFill(id: int, time: int, ticket: SimpleTicket)
    | CloseOrderFill(id: int, openId: int, time: int, ticketId: TicketId, unit: nat, price: real)
    | OtherTransaction(id: int, time: int)

  /** `apply_transaction`: an open fills an empty slot, a close of the held
      ticket empties it, any other kind leaves it; an open over a held
      ticket, a close of another ticket and a close with nothing held
      panic. */
  function Apply(held: Option<SimpleTicket>, t: SimpleTransaction): (r: Checked<Option<SimpleTicket>>)
    ensures r.Panic? <==>
      (t.OpenOrderFill? && held.Some?) || (t.CloseOrderFill? && (held.None? || held.value.id != t.ticketId))
    ensures r.Ok? && t.OpenOrderFill? ==> r.value == Some(t.ticket)
    ensures r.Ok? && t.CloseOrderFill? ==> r.value == None
    ensures t.OtherTransaction? ==> r == Ok(held)
  {
    match t
    case OpenOrderFill(_, _, ticket) =>
      (match held
       case Some(_) => Panic
       case None => Ok(Some(ticket)))
    case CloseOrderFill(_, _, _, ticketId, _, _) =>
      (match held
       case Some(h) => if ticketId == h.id then Ok(None) else Panic
       case None => Panic)
    case OtherTransaction(_, _) => Ok(held)
  }

  /** `as_position`: the held ticket's direction, `Nothing` for an empty
      slot. */
  function AsPositionOf(held: Option<SimpleTicket>): (p: Position.SimplePosition)
    ensures p == Position.Nothing <==> held.None?
    ensures p == Position.Long <==> held.Some? && held.value.longOrShort == Long
    ensures p == Position.Short <==> held.Some? && held.value.longOrShort == Short
  {
    match held
    case Some(ticket) =>
      (match ticket.longOrShort
       case Long => Position.Long
       case Short => Position.Short)
    case None => Position.Nothing
  }

  /** Opening a ticket and then closing it by its id empties the slot
      again, with the ticket's direction as the position in between. */
  lemma OpenThenCloseEmpties(ticket: SimpleTicket, openId: int, closeId: int, t0: int, t1: int, unit: nat, price: real)
    ensures Apply(None, OpenOrderFill(openId, t0, ticket)) == Ok(Some(ticket))
    ensures AsPositionOf(Some(ticket)) == (if ticket.longOrShort == Long then Position.Long else Position.Short)
    ensures Apply(Some(ticket), CloseOrderFill(closeId, openId, t1, ticket.id, unit, price)) == Ok(None)
  {
  }

  class SingleSimpleTicket {
    var ticket: Option<SimpleTicket>

    /** `new`: nothing held. */
    constructor ()
      ensures ticket == None
    {
      ticket := None;
    }

    /** `apply_transaction`: reports whether it panicked; otherwise the
        slot is what `Apply` says, and a panic leaves it as it was. */
    method ApplyTransaction(t: SimpleTransaction) returns (panicked: bool)
      modifies this
      ensures panicked <==> Apply(old(ticket), t).Panic?
      ensures ticket == (if panicked then old(ticket) else Apply(old(ticket), t).value)
    {
      panicked := false;
      match t
      case OpenOrderFill(_, _, tk) =>
        match ticket {
          case Some(_) =>
            panicked := true;
          case None =>
            ticket := Some(tk);
        }
      case CloseOrderFill(_, _, _, ticketId, _, _) =>
        match ticket {
          case Some(h) =>
            if ticketId == h.id {
              ticket := None;
            } else {
              panicked := true;
            }
          case None =>
            panicked := true;
        }
      case OtherTransaction(_, _) =>
    }

    /** `ticket`: the held ticket. */
    function Ticket(): (r: Option<SimpleTicket>)
      reads this
      ensures r == ticket
    {
      ticket
    }

    /** `as_position`. */
    function AsPosition(): (p: Position.SimplePosition)
      reads this
      ensures p == AsPositionOf(ticket)
    {
      AsPositionOf(ticket)
    }
  }

  /** The ticket tests' transactions, placed at transaction id 10 and S5
      steps 0, 5, 7 and 9 (timestamps 0, 25, 35 and 45): open long ticket
      3, close it, open short ticket 4, close it. */
  function TestTransactions(): seq<SimpleTransaction>
  {
    [OpenOrderFill(10, 0, SimpleTicket(TicketId(3), 0, 100, 1.234, Long)),
     CloseOrderFill(11, 10, 25, TicketId(3), 100, 1.5),
     OpenOrderFill(12, 35, SimpleTicket(TicketId(4), 35, 100, 1.4, Short)),
     CloseOrderFill(13, 11, 45, TicketId(4), 100, 1.1)]
  }

  /** The ticket and position tests: the slot holds ticket 3, nothing,
      ticket 4, nothing; the positions are long, nothing, short,
      nothing. */
  method TicketExample() returns (tickets: seq<Option<SimpleTicket>>, positions: seq<Position.SimplePosition>)
    ensures tickets == [Some(SimpleTicket(TicketId(3), 0, 100, 1.234, Long)), None,
                        Some(SimpleTicket(TicketId(4), 35, 100, 1.4, Short)), None]
    ensures positions == [Position.Long, Position.Nothing, Position.Short, Position.Nothing]
  {
    var single := new SingleSimpleTicket();
    var ts := TestTransactions();
    tickets := [];
    positions := [];
    var p0 := single.ApplyTransaction(ts[0]);
    tickets := tickets + [single.Ticket()];
    positions := positions + [single.AsPosition()];
    var p1 := single.ApplyTransaction(ts[1]);
    tickets := tickets + [single.Ticket()];
    positions := positions + [single.AsPosition()];
    var p2 := single.ApplyTransaction(ts[2]);
    tickets := tickets + [single.Ticket()];
    positions := positions + [single.AsPosition()];
    var p3 := single.ApplyTransaction(ts[3]);
    tickets := tickets + [single.Ticket()];
    positions := positions + [single.AsPosition()];
  }
}

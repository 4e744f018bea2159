/**
 * `TradeHistories`: pairs each closing order fill with the opening one it
 * names, giving the completed trade at the close's transaction id.
 */
module Trade {

  import opened Results
  import opened Transaction
  import opened Ticket
  import VecIndicator

  /** A completed trade: the close's unit, time and price with the open's
      direction, time and price. */
  datatype Trade = Trade(unit: nat, longOrShort: LongOrShort, openTime: int, closeTime: int,
                         openPrice: real, closePrice: real)

  /** The trade that closing fill `close` completes against opening fill
      `open`. */
  function Paired(open: SimpleTransaction, close: SimpleTransaction): Trade
    requires open.OpenOrderFill? && close.CloseOrderFill?
  {
    Trade(close.unit, open.ticket.longOrShort, open.time, close.time, open.ticket.price, close.price)
  }

  /** `TradeHistories::value`: the transaction's non-value is handed on;
      anything but a close gives no trade; a close looks up its `openId`,
      whose non-value is handed on, and panics unless that is an open. */
  function TradeValue(source: int -> Res<SimpleTransaction>, at: int): (r: Checked<Res<Option<Trade>>>)
    ensures r.Panic? <==>
      source(at).InRange? && source(at).v.CloseOrderFill? &&
      source(source(at).v.openId).InRange? && !source(source(at).v.openId).v.OpenOrderFill?
    ensures !source(at).InRange? ==> r == Ok(Forward(source(at)))
    ensures source(at).InRange? && !source(at).v.CloseOrderFill? ==> r == Ok(InRange(None))
    ensures source(at).InRange? && source(at).v.CloseOrderFill? && !source(source(at).v.openId).InRange? ==>
      r == Ok(Forward(source(source(at).v.openId)))
  {
    if !source(at).InRange? then Ok(Forward(source(at)))
    else
      match source(at).v
      case CloseOrderFill(_, openId, _, _, _, _) =>
        if !source(openId).InRange? then Ok(Forward(source(openId)))
        else
          (match source(openId).v
           case OpenOrderFill(_, _, _) => Ok(InRange(Some(Paired(source(openId).v, source(at).v))))
           case _ => Panic)
      case _ => Ok(InRange(None))
  }

  /** A trade appears exactly at a close whose `openId` names an open,
      and it carries the close's unit, time and price and the open's
      direction, time and price. */
  lemma TradeIff(source: int -> Res<SimpleTransaction>, at: int, trade: Trade)
    ensures TradeValue(source, at) == Ok(InRange(Some(trade))) <==>
      source(at).InRange? && source(at).v.CloseOrderFill? &&
      source(source(at).v.openId).InRange? && source(source(at).v.openId).v.OpenOrderFill? &&
      trade.unit == source(at).v.unit && trade.closeTime == source(at).v.time &&
      trade.closePrice == source(at).v.price &&
      trade.longOrShort == source(source(at).v.openId).v.ticket.longOrShort &&
      trade.openTime == source(source(at).v.openId).v.time &&
      trade.openPrice == source(source(at).v.openId).v.ticket.price
  {
  }

  /** The trade test's transactions at id 10 on, S5 steps 0, 3, 5 and 9:
      open long ticket 3, open short ticket 4, close the first, close the
      second. */
  function TradeTestSource(i: int): Res<SimpleTransaction>
  {
    VecIndicator.SeriesValue(10, [
      OpenOrderFill(10, 0, SimpleTicket(TicketId(3), 0, 100, 1.234, Long)),
      OpenOrderFill(11, 15, SimpleTicket(TicketId(4), 15, 100, 1.4, Short)),
      CloseOrderFill(12, 10, 25, TicketId(3), 100, 1.5),
      CloseOrderFill(13, 11, 45, TicketId(4), 100, 1.1)], i)
  }

  /** The trade test: no trade at the two opens, then the long trade and
      the short trade at the closes. */
  lemma TradeExample()
    ensures TradeValue(TradeTestSource, 10) == Ok(InRange(None))
    ensures TradeValue(TradeTestSource, 11) == Ok(InRange(None))
    ensures TradeValue(TradeTestSource, 12) == Ok(InRange(Some(Trade(100, Long, 0, 25, 1.234, 1.5))))
    ensures TradeValue(TradeTestSource, 13) == Ok(InRange(Some(Trade(100, Short, 15, 45, 1.4, 1.1))))
  {
  }
}

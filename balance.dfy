/**
 * `ProfitLoss`: the profit or loss of the trade completed at each
 * transaction id, and the running balance the tests accumulate from it.
 */
module Balance {

  import opened Results
  import opened Transaction
  import opened Trade
  import VecIndicator

  /** The gain of one trade: the price move in the trade's favour times
      its unit. */
  function TradeGain(trade: Trade): real
  {
    var distance := match trade.longOrShort
      case Long => trade.closePrice - trade.openPrice
      case Short => trade.openPrice - trade.closePrice;
    distance * trade.unit as real
  }

  /** `ProfitLoss::value`: a non-value is handed on, no trade is 0, a
      trade its gain. */
  function ProfitLossValue(trades: int -> Res<Option<Trade>>, at: int): (r: Res<real>)
    ensures r.InRange? <==> trades(at).InRange?
    ensures !trades(at).InRange? ==> r == Forward(trades(at))
    ensures trades(at) == InRange(None) ==> r == InRange(0.0)
    ensures trades(at).InRange? && trades(at).v.Some? ==> r == InRange(TradeGain(trades(at).v.value))
  {
    match trades(at)
    case InRange(t) => InRange(match t case Some(trade) => TradeGain(trade) case None => 0.0)
    case _ => Forward(trades(at))
  }

  /** A long trade gains the rise, a short one the fall, and the same
      prices traded the other way round gain the negation. */
  lemma GainSides(trade: Trade)
    ensures trade.longOrShort == Long ==> TradeGain(trade) == (trade.closePrice - trade.openPrice) * trade.unit as real
    ensures trade.longOrShort == Short ==> TradeGain(trade) == (trade.openPrice - trade.closePrice) * trade.unit as real
    ensures TradeGain(trade.(longOrShort := Long)) == -TradeGain(trade.(longOrShort := Short))
  {
  }

  /** The sum of a sequence. */
  function Total(xs: seq<real>): real
  {
    if xs == [] then 0.0 else Total(xs[..|xs| - 1]) + xs[|xs| - 1]
  }

  /** The running balance: each entry the total of the gains up to it. */
  method RunningBalance(pls: seq<real>) returns (balances: seq<real>)
    ensures |balances| == |pls|
    ensures forall k :: 0 <= k < |pls| ==> balances[k] == Total(pls[..k + 1])
  {
    balances := [];
    var sum := 0.0;
    var i := 0;
    while i < |pls|
      invariant 0 <= i <= |pls|
      invariant |balances| == i
      invariant sum == Total(pls[..i])
      invariant forall k :: 0 <= k < i ==> balances[k] == Total(pls[..k + 1])
    {
      assert pls[..i + 1][..i] == pls[..i];
      sum := sum + pls[i];
      balances := balances + [sum];
      i := i + 1;
    }
  }

  /** The profit-and-loss test's trades at id 10 on: none, none, the long
      trade, the short trade. */
  function TestTrades(i: int): Res<Option<Trade>>
  {
    VecIndicator.SeriesValue(10, [None, None, Some(Trade(100, Long, 0, 25, 1.234, 1.5)),
                                  Some(Trade(100, Short, 15, 45, 1.4, 1.1))], i)
  }

  /** The profit-and-loss test: 0, 0, 26.6, 30, and a running balance of
      0, 0, 26.6, 56.6. */
  method ProfitLossExample() returns (pls: seq<real>, balances: seq<real>)
    ensures pls == [0.0, 0.0, 26.6, 30.0]
    ensures balances == [0.0, 0.0, 26.6, 56.6]
  {
    pls := [ProfitLossValue(TestTrades, 10).v, ProfitLossValue(TestTrades, 11).v,
            ProfitLossValue(TestTrades, 12).v, ProfitLossValue(TestTrades, 13).v];
    assert pls[..1] == [0.0] && pls[..2] == [0.0, 0.0] && pls[..3] == [0.0, 0.0, 26.6] && pls[..4] == pls;
    var p1, p2, p3 := [0.0], [0.0, 0.0], [0.0, 0.0, 26.6];
    assert p1[..0] == [] && p2[..1] == p1 && p3[..2] == p2 && pls[..3] == p3;
    assert Total(p1) == 0.0 && Total(p2) == 0.0 && Total(p3) == 26.6 && Total(pls) == 56.6;
    balances := RunningBalance(pls);
  }
}

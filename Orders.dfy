/**
 * The exchange as seen by the bot: a log of the cancel and insert requests
 * it is sent, and the two emitters that send passive quotes and the
 * flattening immediate-or-cancel order.
 */
module Orders {

  datatype Side = Bid | Ask
  datatype OrderType = Limit | Ioc

  /** One request sent to the exchange. */
  datatype Action =
    | Cancel(instrumentId: string)
    | Insert(instrumentId: string, price: real, volume: int, side: Side, orderType: OrderType)

  /** The exchange collaborator, reduced to the requests it receives, in order. */
  class Exchange {
    var log: seq<Action>

    constructor ()
      ensures log == []
    {
      log := [];
    }

    /** Delete every outstanding order of the instrument. */
    method DeleteOrders(instrumentId: string)
      modifies this
      ensures log == old(log) + [Cancel(instrumentId)]
    {
      log := log + [Cancel(instrumentId)];
    }

    /** Submit one order; whether the exchange accepts it is not the bot's concern. */
    method InsertOrder(instrumentId: string, price: real, volume: int, side: Side, orderType: OrderType)
      modifies this
      ensures log == old(log) + [Insert(instrumentId, price, volume, side, orderType)]
    {
      log := log + [Insert(instrumentId, price, volume, side, orderType)];
    }
  }

  /** Total volume of the buy orders in `actions`. */
  function BoughtVolume(actions: seq<Action>): int {
    if actions == [] then 0
    else (if actions[0].Insert? && actions[0].side == Bid then actions[0].volume else 0) + BoughtVolume(actions[1..])
  }

  /** Total volume of the sell orders in `actions`. */
  function SoldVolume(actions: seq<Action>): int {
    if actions == [] then 0
    else (if actions[0].Insert? && actions[0].side == Ask then actions[0].volume else 0) + SoldVolume(actions[1..])
  }

  /** The position once every order in `actions` has filled in full. */
  function FilledPosition(position: int, actions: seq<Action>): int {
    position + BoughtVolume(actions) - SoldVolume(actions)
  }

  /**
   * The passive quotes: a bid limit order when the bid volume is positive,
   * then an ask limit order when the ask volume is positive, and nothing else.
   */
  function QuoteActions(instrumentId: string, bidPrice: real, askPrice: real, bidVolume: int, askVolume: int): (r: seq<Action>)
    ensures forall i :: 0 <= i < |r| ==>
      r[i].Insert? && r[i].instrumentId == instrumentId && r[i].orderType == Limit && r[i].volume > 0
    ensures forall i :: 0 <= i < |r| && r[i].side == Bid ==> r[i].price == bidPrice && r[i].volume == bidVolume
    ensures forall i :: 0 <= i < |r| && r[i].side == Ask ==> r[i].price == askPrice && r[i].volume == askVolume
    ensures (exists i :: 0 <= i < |r| && r[i].side == Bid) <==> bidVolume > 0
    ensures (exists i :: 0 <= i < |r| && r[i].side == Ask) <==> askVolume > 0
    ensures |r| == (if bidVolume > 0 then 1 else 0) + (if askVolume > 0 then 1 else 0)
    ensures forall i, j :: 0 <= i < j < |r| ==> r[i].side == Bid && r[j].side == Ask
  {
    var bid := Insert(instrumentId, bidPrice, bidVolume, Bid, Limit);
    var ask := Insert(instrumentId, askPrice, askVolume, Ask, Limit);
    if bidVolume > 0 && askVolume > 0 then
      assert [bid, ask][0] == bid && [bid, ask][1] == ask;
      [bid, ask]
    else if bidVolume > 0 then
      assert [bid][0] == bid;
      [bid]
    else if askVolume > 0 then
      assert [ask][0] == ask;
      [ask]
    else []
  }

  /**
   * The flattening order: a short position is bought back at the best ask,
   * a long one sold at the best bid, each with an immediate-or-cancel order
   * for the whole position; a flat position sends nothing.
   */
  function IocActions(instrumentId: string, bestBid: real, bestAsk: real, position: int): (r: seq<Action>)
    ensures |r| == if position == 0 then 0 else 1
    ensures forall i :: 0 <= i < |r| ==>
      r[i].Insert? && r[i].instrumentId == instrumentId && r[i].orderType == Ioc && r[i].volume > 0 &&
      (if position < 0 then r[i].side == Bid && r[i].price == bestAsk else r[i].side == Ask && r[i].price == bestBid)
  {
    (if position < 0 then [Insert(instrumentId, bestAsk, -position, Bid, Ioc)] else []) +
    (if position > 0 then [Insert(instrumentId, bestBid, position, Ask, Ioc)] else [])
  }

  /** Once the flattening order fills in full the position is exactly zero. */
  lemma IocFlattensExactly(instrumentId: string, bestBid: real, bestAsk: real, position: int)
    ensures FilledPosition(position, IocActions(instrumentId, bestBid, bestAsk, position)) == 0
  {
    var r := IocActions(instrumentId, bestBid, bestAsk, position);
    if r != [] {
      assert r[1..] == [];
      assert BoughtVolume(r) == (if r[0].side == Bid then r[0].volume else 0);
      assert SoldVolume(r) == (if r[0].side == Ask then r[0].volume else 0);
    }
  }

  /** Filling the passive quotes buys exactly the positive bid volume and sells exactly the positive ask volume. */
  lemma QuoteVolumes(instrumentId: string, bidPrice: real, askPrice: real, bidVolume: int, askVolume: int)
    ensures BoughtVolume(QuoteActions(instrumentId, bidPrice, askPrice, bidVolume, askVolume)) == if bidVolume > 0 then bidVolume else 0
    ensures SoldVolume(QuoteActions(instrumentId, bidPrice, askPrice, bidVolume, askVolume)) == if askVolume > 0 then askVolume else 0
  {
    var r := QuoteActions(instrumentId, bidPrice, askPrice, bidVolume, askVolume);
    var bid := Insert(instrumentId, bidPrice, bidVolume, Bid, Limit);
    var ask := Insert(instrumentId, askPrice, askVolume, Ask, Limit);
    if bidVolume > 0 && askVolume > 0 {
      assert r == [bid, ask];
      assert [bid, ask][1..] == [ask] && [ask][1..] == [];
      assert BoughtVolume([ask]) == 0 && SoldVolume([ask]) == askVolume;
    } else if bidVolume > 0 {
      assert r == [bid];
      assert [bid][1..] == [];
    } else if askVolume > 0 {
      assert r == [ask];
      assert [ask][1..] == [];
    }
  }

  /** Sends the passive quotes. */
  method InsertQuotes(exchange: Exchange, instrumentId: string, bidPrice: real, askPrice: real, bidVolume: int, askVolume: int)
    modifies exchange
    ensures exchange.log == old(exchange.log) + QuoteActions(instrumentId, bidPrice, askPrice, bidVolume, askVolume)
  {
    if bidVolume > 0 {
      exchange.InsertOrder(instrumentId, bidPrice, bidVolume, Bid, Limit);
    }
    if askVolume > 0 {
      exchange.InsertOrder(instrumentId, askPrice, askVolume, Ask, Limit);
    }
  }

  /** Sends the flattening order. */
  method InsertIoc(exchange: Exchange, instrumentId: string, bestBid: real, bestAsk: real, position: int)
    modifies exchange
    ensures exchange.log == old(exchange.log) + IocActions(instrumentId, bestBid, bestAsk, position)
  {
    if position < 0 {
      exchange.InsertOrder(instrumentId, bestAsk, -position, Bid, Ioc);
    }
    if position > 0 {
      exchange.InsertOrder(instrumentId, bestBid, position, Ask, Ioc);
    }
  }
}

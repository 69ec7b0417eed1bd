/**
 * One pass of the main loop: the feed filters run once, then every
 * instrument in turn has its orders cancelled, its book checked, its quote
 * priced and one of three actions chosen and sent.
 */
module Cycle {
  import opened Wrappers
  import opened WordMatch
  import opened Sentiment
  import opened Relevance
  import opened Pricing
  import opened Orders

  /** A tradable instrument; its tick size is a positive price increment. */
  datatype Instrument = Instrument(instrumentId: string, tickSize: real)

  datatype PriceLevel = PriceLevel(price: real, volume: int)

  /** Bids best first (descending), asks best first (ascending). */
  datatype PriceBook = PriceBook(bids: seq<PriceLevel>, asks: seq<PriceLevel>)

  /** What the exchange reports for one instrument in this cycle: its last book, if any, and the bot's position. */
  datatype Observation = Observation(book: Option<PriceBook>, position: int)

  /** The book has both a best bid and a best ask, so both can be read. */
  predicate Quotable(book: Option<PriceBook>) {
    book.Some? && book.value.bids != [] && book.value.asks != []
  }

  /**
   * What the step needs of its inputs: a positive tick size, and an alias-table
   * entry whenever the relevance check looks one up (a quotable book and a
   * non-empty feed list).
   */
  predicate StepInputsOk(instrument: Instrument, observation: Observation, riskyFeeds: seq<Feed>, optimisticFeeds: seq<Feed>) {
    instrument.tickSize > 0.0 &&
    (Quotable(observation.book) && (riskyFeeds != [] || optimisticFeeds != []) ==> instrument.instrumentId in AliasTable)
  }

  /** The orders chosen for a quotable book: flatten, else take, else quote. */
  function DecisionActions(instrument: Instrument, bestBid: real, bestAsk: real, position: int,
                           riskyFeeds: seq<Feed>, optimisticFeeds: seq<Feed>): (r: seq<Action>)
    requires instrument.tickSize > 0.0
    requires riskyFeeds != [] || optimisticFeeds != [] ==> instrument.instrumentId in AliasTable
    ensures |r| <= 2
    ensures forall i :: 0 <= i < |r| ==> r[i].Insert? && r[i].instrumentId == instrument.instrumentId
    ensures Related(riskyFeeds, instrument.instrumentId) ==>
      |r| == (if position == 0 then 0 else 1) && forall i :: 0 <= i < |r| ==> r[i].orderType == Ioc
    ensures !Related(riskyFeeds, instrument.instrumentId) && Related(optimisticFeeds, instrument.instrumentId) ==>
      |r| == 1 && r[0].side == Bid && r[0].orderType == Ioc && r[0].price == bestAsk && r[0].volume == BidVolume(position)
    ensures !Related(riskyFeeds, instrument.instrumentId) && !Related(optimisticFeeds, instrument.instrumentId) ==>
      forall i :: 0 <= i < |r| ==> r[i].orderType == Limit
  {
    var id := instrument.instrumentId;
    var q := ComputeQuote(bestBid, bestAsk, position, instrument.tickSize);
    if Related(riskyFeeds, id) then IocActions(id, bestBid, bestAsk, position)
    else if Related(optimisticFeeds, id) then [Insert(id, bestAsk, q.bidVolume, Bid, Ioc)]
    else QuoteActions(id, q.bidPrice, q.askPrice, q.bidVolume, q.askVolume)
  }

  /** Everything one instrument's step sends: the cancel, then the chosen orders if the book is quotable. */
  function StepActions(instrument: Instrument, observation: Observation, riskyFeeds: seq<Feed>, optimisticFeeds: seq<Feed>): seq<Action>
    requires StepInputsOk(instrument, observation, riskyFeeds, optimisticFeeds)
  {
    [Cancel(instrument.instrumentId)] +
    if !Quotable(observation.book) then []
    else DecisionActions(instrument, observation.book.value.bids[0].price, observation.book.value.asks[0].price,
                         observation.position, riskyFeeds, optimisticFeeds)
  }

  /** One instrument's step: cancel, read the book, skip if one-sided, price, decide and send. */
  method ProcessInstrument(exchange: Exchange, instrument: Instrument, observation: Observation,
                           riskyFeeds: seq<Feed>, optimisticFeeds: seq<Feed>)
    requires StepInputsOk(instrument, observation, riskyFeeds, optimisticFeeds)
    modifies exchange
    ensures exchange.log == old(exchange.log) + StepActions(instrument, observation, riskyFeeds, optimisticFeeds)
  {
    var id := instrument.instrumentId;
    exchange.DeleteOrders(id);
    var book := observation.book;
    if !(book.Some? && book.value.bids != [] && book.value.asks != []) {
      return;
    }
    var position := observation.position;
    var bestBid := book.value.bids[0].price;
    var bestAsk := book.value.asks[0].price;
    var q := ComputeQuote(bestBid, bestAsk, position, instrument.tickSize);
    var risky := IsRelated(riskyFeeds, id);
    if risky {
      InsertIoc(exchange, id, bestBid, bestAsk, position);
    } else {
      var optimistic := IsRelated(optimisticFeeds, id);
      if optimistic {
        exchange.InsertOrder(id, bestAsk, q.bidVolume, Bid, Ioc);
      } else {
        InsertQuotes(exchange, id, q.bidPrice, q.askPrice, q.bidVolume, q.askVolume);
      }
    }
  }

  /** The cancel comes first, and every later request is an order for the same instrument. */
  lemma CancelFirst(instrument: Instrument, observation: Observation, riskyFeeds: seq<Feed>, optimisticFeeds: seq<Feed>)
    requires StepInputsOk(instrument, observation, riskyFeeds, optimisticFeeds)
    ensures var r := StepActions(instrument, observation, riskyFeeds, optimisticFeeds);
            r != [] && r[0] == Cancel(instrument.instrumentId) &&
            forall i :: 1 <= i < |r| ==> r[i].Insert? && r[i].instrumentId == instrument.instrumentId
  {
  }

  /** A book without a bid or without an ask sends the cancel and nothing else. */
  lemma OneSidedBookSkipped(instrument: Instrument, observation: Observation, riskyFeeds: seq<Feed>, optimisticFeeds: seq<Feed>)
    requires StepInputsOk(instrument, observation, riskyFeeds, optimisticFeeds)
    requires !Quotable(observation.book)
    ensures StepActions(instrument, observation, riskyFeeds, optimisticFeeds) == [Cancel(instrument.instrumentId)]
  {
  }

  /**
   * The three-way priority: a related risky feed flattens, whatever the
   * optimistic feeds say; otherwise a related optimistic feed sends one
   * immediate-or-cancel buy at the best ask for the bid volume, which is not
   * checked to be positive; otherwise the passive quotes go out.
   */
  lemma StepPriority(instrument: Instrument, observation: Observation, riskyFeeds: seq<Feed>, optimisticFeeds: seq<Feed>)
    requires StepInputsOk(instrument, observation, riskyFeeds, optimisticFeeds)
    requires Quotable(observation.book)
    ensures var id := instrument.instrumentId;
            var bestBid := observation.book.value.bids[0].price;
            var bestAsk := observation.book.value.asks[0].price;
            var position := observation.position;
            var q := ComputeQuote(bestBid, bestAsk, position, instrument.tickSize);
            var r := StepActions(instrument, observation, riskyFeeds, optimisticFeeds);
            if Related(riskyFeeds, id) then
              r == [Cancel(id)] + IocActions(id, bestBid, bestAsk, position)
            else if Related(optimisticFeeds, id) then
              r == [Cancel(id), Insert(id, bestAsk, BidVolume(position), Bid, Ioc)]
            else
              r == [Cancel(id)] + QuoteActions(id, q.bidPrice, q.askPrice, q.bidVolume, q.askVolume)
  {
  }

  /** With no related feed at all, both sides are quoted passively whenever the position is strictly inside the limit. */
  lemma UnrelatedFeedsQuoteBothSides(instrument: Instrument, observation: Observation, riskyFeeds: seq<Feed>, optimisticFeeds: seq<Feed>)
    requires StepInputsOk(instrument, observation, riskyFeeds, optimisticFeeds)
    requires Quotable(observation.book)
    requires !Related(riskyFeeds, instrument.instrumentId) && !Related(optimisticFeeds, instrument.instrumentId)
    requires -PositionLimit < observation.position < PositionLimit
    ensures var r := StepActions(instrument, observation, riskyFeeds, optimisticFeeds);
            |r| == 3 && r[1].Insert? && r[1].side == Bid && r[1].orderType == Limit &&
            r[2].Insert? && r[2].side == Ask && r[2].orderType == Limit && r[1].price < r[2].price
  {
  }

  /** The cancel buys and sells nothing. */
  lemma CancelTradesNothing(instrumentId: string, actions: seq<Action>)
    ensures BoughtVolume([Cancel(instrumentId)] + actions) == BoughtVolume(actions)
    ensures SoldVolume([Cancel(instrumentId)] + actions) == SoldVolume(actions)
  {
  }

  /** Each of the three decisions keeps a full fill of its buys, and of its sells, within the position limit. */
  lemma DecisionRespectsPositionLimit(instrument: Instrument, bestBid: real, bestAsk: real, position: int,
                                      riskyFeeds: seq<Feed>, optimisticFeeds: seq<Feed>)
    requires instrument.tickSize > 0.0
    requires riskyFeeds != [] || optimisticFeeds != [] ==> instrument.instrumentId in AliasTable
    requires -PositionLimit <= position <= PositionLimit
    ensures var d := DecisionActions(instrument, bestBid, bestAsk, position, riskyFeeds, optimisticFeeds);
            position + BoughtVolume(d) <= PositionLimit && position - SoldVolume(d) >= -PositionLimit
  {
    var id := instrument.instrumentId;
    var q := ComputeQuote(bestBid, bestAsk, position, instrument.tickSize);
    if Related(riskyFeeds, id) {
      var r := IocActions(id, bestBid, bestAsk, position);
      IocFlattensExactly(id, bestBid, bestAsk, position);
      if r != [] {
        assert r[1..] == [];
        assert BoughtVolume(r) == 0 || SoldVolume(r) == 0;
      }
    } else if Related(optimisticFeeds, id) {
      var r := [Insert(id, bestAsk, q.bidVolume, Bid, Ioc)];
      assert r[1..] == [];
      assert BoughtVolume(r) == BidVolume(position) && SoldVolume(r) == 0;
    } else {
      QuoteVolumes(id, q.bidPrice, q.askPrice, q.bidVolume, q.askVolume);
      VolumesWithinLimits(position);
    }
  }

  /**
   * Whatever the step sends, a full fill of its buy orders and, separately,
   * of its sell orders keeps a position that was within the limit within it.
   */
  lemma StepRespectsPositionLimit(instrument: Instrument, observation: Observation, riskyFeeds: seq<Feed>, optimisticFeeds: seq<Feed>)
    requires StepInputsOk(instrument, observation, riskyFeeds, optimisticFeeds)
    requires -PositionLimit <= observation.position <= PositionLimit
    ensures var r := StepActions(instrument, observation, riskyFeeds, optimisticFeeds);
            observation.position + BoughtVolume(r) <= PositionLimit &&
            observation.position - SoldVolume(r) >= -PositionLimit
  {
    var d: seq<Action> := [];
    if Quotable(observation.book) {
      d := DecisionActions(instrument, observation.book.value.bids[0].price, observation.book.value.asks[0].price,
                           observation.position, riskyFeeds, optimisticFeeds);
      DecisionRespectsPositionLimit(instrument, observation.book.value.bids[0].price, observation.book.value.asks[0].price,
                                    observation.position, riskyFeeds, optimisticFeeds);
    }
    assert StepActions(instrument, observation, riskyFeeds, optimisticFeeds) == [Cancel(instrument.instrumentId)] + d;
    CancelTradesNothing(instrument.instrumentId, d);
  }

  /** Every action of the cycle: the instruments' steps, in instrument order. */
  function CycleActions(instruments: seq<Instrument>, observations: seq<Observation>,
                        riskyFeeds: seq<Feed>, optimisticFeeds: seq<Feed>): seq<Action>
    requires |observations| == |instruments|
    requires forall k :: 0 <= k < |instruments| ==> StepInputsOk(instruments[k], observations[k], riskyFeeds, optimisticFeeds)
  {
    if instruments == [] then []
    else
      var n := |instruments| - 1;
      CycleActions(instruments[..n], observations[..n], riskyFeeds, optimisticFeeds) +
      StepActions(instruments[n], observations[n], riskyFeeds, optimisticFeeds)
  }

  /** The actions of the first k + 1 instruments extend those of the first k by step k's. */
  lemma CycleActionsSnoc(instruments: seq<Instrument>, observations: seq<Observation>,
                         riskyFeeds: seq<Feed>, optimisticFeeds: seq<Feed>, k: nat)
    requires |observations| == |instruments| && k < |instruments|
    requires forall j :: 0 <= j < |instruments| ==> StepInputsOk(instruments[j], observations[j], riskyFeeds, optimisticFeeds)
    ensures CycleActions(instruments[..k + 1], observations[..k + 1], riskyFeeds, optimisticFeeds) ==
            CycleActions(instruments[..k], observations[..k], riskyFeeds, optimisticFeeds) +
            StepActions(instruments[k], observations[k], riskyFeeds, optimisticFeeds)
  {
    assert instruments[..k + 1][..k] == instruments[..k];
    assert observations[..k + 1][..k] == observations[..k];
  }

  /** The cycle's input conditions, in terms of the feed batch and the classifier. */
  predicate CycleInputsOk(instruments: seq<Instrument>, observations: seq<Observation>, feeds: seq<Feed>, classify: Classifier) {
    |observations| == |instruments| &&
    forall k :: 0 <= k < |instruments| ==>
      StepInputsOk(instruments[k], observations[k], RiskyFeeds(classify, feeds), OptimisticFeeds(classify, feeds))
  }

  /** One pass of the main loop over the instrument list. */
  method RunCycle(exchange: Exchange, instruments: seq<Instrument>, observations: seq<Observation>,
                  feeds: seq<Feed>, classify: Classifier)
    requires CycleInputsOk(instruments, observations, feeds, classify)
    modifies exchange
    ensures exchange.log == old(exchange.log) +
      CycleActions(instruments, observations, RiskyFeeds(classify, feeds), OptimisticFeeds(classify, feeds))
  {
    var riskyFeeds := GetRiskyFeeds(feeds, classify);
    var optimisticFeeds := GetOptimisticFeeds(feeds, classify);
    assert forall j :: 0 <= j < |instruments| ==> StepInputsOk(instruments[j], observations[j], riskyFeeds, optimisticFeeds);
    for k := 0 to |instruments|
      invariant exchange.log == old(exchange.log) +
        CycleActions(instruments[..k], observations[..k], riskyFeeds, optimisticFeeds)
    {
      ProcessInstrument(exchange, instruments[k], observations[k], riskyFeeds, optimisticFeeds);
      CycleActionsSnoc(instruments, observations, riskyFeeds, optimisticFeeds, k);
    }
    assert instruments[..|instruments|] == instruments;
    assert observations[..|instruments|] == observations;
  }

  /** No request in `actions` is an immediate-or-cancel order. */
  predicate OnlyLimitOrders(actions: seq<Action>) {
    forall i :: 0 <= i < |actions| && actions[i].Insert? ==> actions[i].orderType == Limit
  }

  /** With no feed passing either filter, the cycle sends no immediate-or-cancel order at all. */
  lemma {:induction false} NoSignalNoIoc(instruments: seq<Instrument>, observations: seq<Observation>)
    requires |observations| == |instruments|
    requires forall k :: 0 <= k < |instruments| ==> StepInputsOk(instruments[k], observations[k], [], [])
    ensures OnlyLimitOrders(CycleActions(instruments, observations, [], []))
  {
    if instruments != [] {
      var n := |instruments| - 1;
      NoSignalNoIoc(instruments[..n], observations[..n]);
      var before := CycleActions(instruments[..n], observations[..n], [], []);
      var s := StepActions(instruments[n], observations[n], [], []);
      if Quotable(observations[n].book) {
        var d := DecisionActions(instruments[n], observations[n].book.value.bids[0].price,
                                 observations[n].book.value.asks[0].price, observations[n].position, [], []);
        assert !Related([], instruments[n].instrumentId);
        assert OnlyLimitOrders(d);
        assert s == [Cancel(instruments[n].instrumentId)] + d;
      }
      assert OnlyLimitOrders(s);
      var r := CycleActions(instruments, observations, [], []);
      assert r == before + s;
      forall i | 0 <= i < |r| && r[i].Insert?
        ensures r[i].orderType == Limit
      {
        if i < |before| {
          assert r[i] == before[i];
        } else {
          assert r[i] == s[i - |before|];
        }
      }
    }
  }

  /**
   * The risk verdict: some risky feed of the batch mentions the instrument
   * exactly when the relevance check on the risky feeds succeeds.
   */
  lemma RiskVerdict(classify: Classifier, feeds: seq<Feed>, instrumentId: string)
    requires instrumentId in AliasTable
    ensures Related(RiskyFeeds(classify, feeds), instrumentId) <==>
            exists i :: 0 <= i < |feeds| && IsRisky(classify, feeds[i]) && MentionsInstrument(feeds[i].post, instrumentId)
  {
    var risky := RiskyFeeds(classify, feeds);
    if Related(risky, instrumentId) {
      var j :| 0 <= j < |risky| && MentionsInstrument(risky[j].post, instrumentId);
      RiskyFeedsExactly(classify, feeds, risky[j]);
      var i :| 0 <= i < |feeds| && feeds[i] == risky[j];
      assert IsRisky(classify, feeds[i]) && MentionsInstrument(feeds[i].post, instrumentId);
    }
    if exists i :: 0 <= i < |feeds| && IsRisky(classify, feeds[i]) && MentionsInstrument(feeds[i].post, instrumentId) {
      var i :| 0 <= i < |feeds| && IsRisky(classify, feeds[i]) && MentionsInstrument(feeds[i].post, instrumentId);
      RiskyFeedsExactly(classify, feeds, feeds[i]);
      RelatedByMember(risky, instrumentId, feeds[i]);
    }
  }

  /** The optimism verdict, stated the same way. */
  lemma OptimismVerdict(classify: Classifier, feeds: seq<Feed>, instrumentId: string)
    requires instrumentId in AliasTable
    ensures Related(OptimisticFeeds(classify, feeds), instrumentId) <==>
            exists i :: 0 <= i < |feeds| && IsOptimistic(classify, feeds[i]) && MentionsInstrument(feeds[i].post, instrumentId)
  {
    var optimistic := OptimisticFeeds(classify, feeds);
    if Related(optimistic, instrumentId) {
      var j :| 0 <= j < |optimistic| && MentionsInstrument(optimistic[j].post, instrumentId);
      OptimisticFeedsExactly(classify, feeds, optimistic[j]);
      var i :| 0 <= i < |feeds| && feeds[i] == optimistic[j];
      assert IsOptimistic(classify, feeds[i]) && MentionsInstrument(feeds[i].post, instrumentId);
    }
    if exists i :: 0 <= i < |feeds| && IsOptimistic(classify, feeds[i]) && MentionsInstrument(feeds[i].post, instrumentId) {
      var i :| 0 <= i < |feeds| && IsOptimistic(classify, feeds[i]) && MentionsInstrument(feeds[i].post, instrumentId);
      OptimisticFeedsExactly(classify, feeds, feeds[i]);
      RelatedByMember(optimistic, instrumentId, feeds[i]);
    }
  }

  /**
   * The priority law end to end: once some risky feed of the batch mentions
   * the instrument, the step cancels and flattens, whatever the optimistic
   * feeds say, and a full fill leaves the position at zero.
   */
  lemma RiskyMentionFlattens(classify: Classifier, feeds: seq<Feed>, instrument: Instrument, observation: Observation)
    requires StepInputsOk(instrument, observation, RiskyFeeds(classify, feeds), OptimisticFeeds(classify, feeds))
    requires Quotable(observation.book) && instrument.instrumentId in AliasTable
    requires exists i :: 0 <= i < |feeds| && IsRisky(classify, feeds[i]) && MentionsInstrument(feeds[i].post, instrument.instrumentId)
    ensures var r := StepActions(instrument, observation, RiskyFeeds(classify, feeds), OptimisticFeeds(classify, feeds));
            r == [Cancel(instrument.instrumentId)] +
                 IocActions(instrument.instrumentId, observation.book.value.bids[0].price,
                            observation.book.value.asks[0].price, observation.position) &&
            FilledPosition(observation.position, r) == 0
  {
    var risky := RiskyFeeds(classify, feeds);
    var optimistic := OptimisticFeeds(classify, feeds);
    var bestBid := observation.book.value.bids[0].price;
    var bestAsk := observation.book.value.asks[0].price;
    RiskVerdict(classify, feeds, instrument.instrumentId);
    StepPriority(instrument, observation, risky, optimistic);
    IocFlattensExactly(instrument.instrumentId, bestBid, bestAsk, observation.position);
    CancelTradesNothing(instrument.instrumentId, IocActions(instrument.instrumentId, bestBid, bestAsk, observation.position));
  }

  /** The optimistic take is not guarded by a positive volume: at the long limit it is sent for zero lots. */
  lemma TakeAtLongLimitHasZeroVolume(instrument: Instrument, observation: Observation, riskyFeeds: seq<Feed>, optimisticFeeds: seq<Feed>)
    requires StepInputsOk(instrument, observation, riskyFeeds, optimisticFeeds)
    requires Quotable(observation.book) && observation.position == PositionLimit
    requires !Related(riskyFeeds, instrument.instrumentId) && Related(optimisticFeeds, instrument.instrumentId)
    ensures var r := StepActions(instrument, observation, riskyFeeds, optimisticFeeds);
            |r| == 2 && r[1].Insert? && r[1].orderType == Ioc && r[1].side == Bid && r[1].volume == 0
  {
    StepPriority(instrument, observation, riskyFeeds, optimisticFeeds);
  }

  /**
   * A classifier that scores 0.6 on the second label ("Worried") and 0.1 on
   * every other, so "Cisco is in trouble" is risky and not optimistic.
   */
  function WorriedClassifier(): Classifier {
    (text: string, labels: seq<string>) => seq(|labels|, i => if i == 1 then 0.6 else 0.1)
  }

  /** Under that classifier every feed is risky and none is optimistic. */
  lemma WorriedClassifierVerdicts(feed: Feed)
    ensures IsRisky(WorriedClassifier(), feed) && !IsOptimistic(WorriedClassifier(), feed)
  {
  }

  /** "Cisco is in trouble" names Cisco as a whole word. */
  lemma CiscoPostMentionsCisco()
    ensures MentionsInstrument("Cisco is in trouble", "CSCO")
  {
    var text := "Cisco is in trouble";
    assert text[0..5] == "Cisco";
    assert BoundaryAt(text, 5) by {
      assert IsWordChar(text[4]) && !IsWordChar(text[5]);
    }
    assert WordAt(text, AliasTable["CSCO"][0], 0);
  }

  /** A risky post about Cisco with a long position of 30 sells the 30 lots at the best bid, immediate-or-cancel. */
  lemma CiscoInTroubleFlattens()
    ensures var feeds := [Feed("Cisco is in trouble")];
            var csco := Instrument("CSCO", 0.01);
            var book := PriceBook([PriceLevel(9.90, 5)], [PriceLevel(10.10, 5)]);
            var observation := Observation(Some(book), 30);
            StepInputsOk(csco, observation, RiskyFeeds(WorriedClassifier(), feeds), OptimisticFeeds(WorriedClassifier(), feeds)) &&
            StepActions(csco, observation, RiskyFeeds(WorriedClassifier(), feeds), OptimisticFeeds(WorriedClassifier(), feeds)) ==
              [Cancel("CSCO"), Insert("CSCO", 9.90, 30, Ask, Ioc)]
  {
    var feed := Feed("Cisco is in trouble");
    var c := WorriedClassifier();
    var csco := Instrument("CSCO", 0.01);
    var observation := Observation(Some(PriceBook([PriceLevel(9.90, 5)], [PriceLevel(10.10, 5)])), 30);
    WorriedClassifierVerdicts(feed);
    var risky := RiskyFeeds(c, [feed]);
    var optimistic := OptimisticFeeds(c, [feed]);
    assert risky == [feed] by {
      assert [feed][1..] == [];
    }
    assert optimistic == [] by {
      assert [feed][1..] == [];
    }
    CiscoPostMentionsCisco();
    assert Related(risky, "CSCO");
    StepPriority(csco, observation, risky, optimistic);
    assert IocActions("CSCO", 9.90, 10.10, 30) == [Insert("CSCO", 9.90, 30, Ask, Ioc)];
  }
}

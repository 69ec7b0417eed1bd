/**
 * The quote pricing engine: mid price, inventory-skewed theoretical price,
 * tick-rounded bid and ask, the crossed-market correction and the position-
 * limit caps on the quoted volumes. Prices are exact reals.
 */
module Pricing {

  const QuotedVolume: int := 10
  const FixedMinimumCredit: real := 0.15
  const PriceRetreatPerLot: real := 0.005
  const PositionLimit: int := 100

  /** `price` is a whole number of ticks. */
  ghost predicate OnTick(price: real, tick: real)
    requires tick > 0.0
  {
    (price / tick).Floor as real == price / tick
  }

  /**
   * The largest multiple of `tick` that is at most `x`. The rounding helpers
   * come from a library that is not part of this model; this meaning, and
   * that of `RoundUpToTick`, is assumed of them.
   */
  function RoundDownToTick(x: real, tick: real): (r: real)
    requires tick > 0.0
    ensures r <= x < r + tick
    ensures OnTick(r, tick)
  {
    var k := (x / tick).Floor;
    TicksBelow(x, tick);
    TicksAbove(x, tick);
    MultipleOnTick(k, tick);
    k as real * tick
  }

  /** The smallest multiple of `tick` that is at least `x` (an assumed meaning, as above). */
  function RoundUpToTick(x: real, tick: real): (r: real)
    requires tick > 0.0
    ensures r - tick < x <= r
    ensures OnTick(r, tick)
  {
    var d := RoundDownToTick(-x, tick);
    NegatedOnTick(d, tick);
    -d
  }

  lemma MultipleOnTick(k: int, tick: real)
    requires tick > 0.0
    ensures OnTick(k as real * tick, tick)
  {
    MulDiv(k as real, tick);
    assert (k as real).Floor == k;
  }

  lemma TicksBelow(x: real, tick: real)
    requires tick > 0.0
    ensures (x / tick).Floor as real * tick <= x
  {
  }

  lemma TicksAbove(x: real, tick: real)
    requires tick > 0.0
    ensures x < (x / tick).Floor as real * tick + tick
  {
    assert ((x / tick).Floor as real + 1.0) * tick == (x / tick).Floor as real * tick + tick;
    MulStrict(x / tick, (x / tick).Floor as real + 1.0, tick);
    DivMul(x, tick);
  }

  lemma DivMul(x: real, tick: real)
    requires tick > 0.0
    ensures (x / tick) * tick == x
  {
  }

  lemma MulDiv(k: real, tick: real)
    requires tick > 0.0
    ensures (k * tick) / tick == k
  {
  }

  lemma NegatedOnTick(d: real, tick: real)
    requires tick > 0.0 && OnTick(d, tick)
    ensures OnTick(-d, tick)
  {
    var n := (d / tick).Floor;
    NegDiv(d, tick);
    assert (-d) / tick == (-n) as real;
    assert ((-n) as real).Floor == -n;
  }

  lemma NegDiv(d: real, tick: real)
    requires tick > 0.0
    ensures (-d) / tick == -(d / tick)
  {
  }

  lemma MulMonotone(a: real, b: real, c: real)
    requires a <= b && c > 0.0
    ensures a * c <= b * c
  {
  }

  lemma MulStrict(a: real, b: real, c: real)
    requires a < b && c > 0.0
    ensures a * c < b * c
  {
  }

  /** No multiple of `tick` lies strictly between a rounded-down price and `x`. */
  lemma RoundDownIsLargest(x: real, tick: real, k: int)
    requires tick > 0.0
    requires k as real * tick <= x
    ensures k as real * tick <= RoundDownToTick(x, tick)
  {
    var r := RoundDownToTick(x, tick);
    var m := (r / tick).Floor;
    assert r == m as real * tick;
    if k > m {
      MulMonotone((m + 1) as real, k as real, tick);
      assert false;
    }
    MulMonotone(k as real, m as real, tick);
  }

  /** Halfway between the best bid and the best ask. */
  function MidPrice(bestBid: real, bestAsk: real): (m: real)
    ensures m - bestBid == bestAsk - m
    ensures bestBid <= bestAsk ==> bestBid <= m <= bestAsk
  {
    (bestBid + bestAsk) / 2.0
  }

  /** The mid price skewed against the current inventory. */
  function TheoreticalPrice(bestBid: real, bestAsk: real, position: int): (t: real)
    ensures position == 0 ==> t == MidPrice(bestBid, bestAsk)
    ensures position > 0 <==> t < MidPrice(bestBid, bestAsk)
    ensures position < 0 <==> t > MidPrice(bestBid, bestAsk)
  {
    MidPrice(bestBid, bestAsk) - PriceRetreatPerLot * position as real
  }

  /** Inventory skew: a larger position gives a strictly lower theoretical price, by 0.005 a lot. */
  lemma TheoreticalPriceDecreasing(bestBid: real, bestAsk: real, p: int, p': int)
    requires p < p'
    ensures TheoreticalPrice(bestBid, bestAsk, p') < TheoreticalPrice(bestBid, bestAsk, p)
    ensures TheoreticalPrice(bestBid, bestAsk, p) - TheoreticalPrice(bestBid, bestAsk, p') == PriceRetreatPerLot * (p' - p) as real
  {
  }

  /** The quote for one instrument in one cycle. */
  datatype Quote = Quote(bidPrice: real, askPrice: real, bidVolume: int, askVolume: int)

  /** The crossed-market correction fires: the rounded bid is below the best ask, the rounded ask above the best bid, and the book is crossed. */
  predicate CrossingCorrected(bid: real, ask: real, bestBid: real, bestAsk: real) {
    bid < bestAsk && ask > bestBid && bestBid > bestAsk
  }

  /** A bid volume that keeps a filled bid within the position limit. */
  function BidVolume(position: int): (v: int)
    ensures v <= QuotedVolume && position + v <= PositionLimit
    ensures v == QuotedVolume || position + v == PositionLimit
  {
    if QuotedVolume <= PositionLimit - position then QuotedVolume else PositionLimit - position
  }

  /** An ask volume that keeps a filled ask within the position limit. */
  function AskVolume(position: int): (v: int)
    ensures v <= QuotedVolume && position - v >= -PositionLimit
    ensures v == QuotedVolume || position - v == -PositionLimit
  {
    if QuotedVolume <= PositionLimit + position then QuotedVolume else PositionLimit + position
  }

  /** The full quote for a book with best prices `bestBid` and `bestAsk`. */
  function ComputeQuote(bestBid: real, bestAsk: real, position: int, tick: real): (q: Quote)
    requires tick > 0.0
    ensures q.bidPrice < q.askPrice
    ensures q.bidVolume == BidVolume(position) && q.askVolume == AskVolume(position)
  {
    var theo := TheoreticalPrice(bestBid, bestAsk, position);
    var bid := RoundDownToTick(theo - FixedMinimumCredit, tick);
    var ask := RoundUpToTick(theo + FixedMinimumCredit, tick);
    if CrossingCorrected(bid, ask, bestBid, bestAsk) then
      Quote(bestAsk, bestBid, BidVolume(position), AskVolume(position))
    else
      Quote(bid, ask, BidVolume(position), AskVolume(position))
  }

  /**
   * On a book that is not crossed the correction never fires: the prices are
   * on the tick grid, at least the minimum credit away from the theoretical
   * price, and the nearest grid prices that are.
   */
  lemma UncrossedQuoteKeepsCredit(bestBid: real, bestAsk: real, position: int, tick: real)
    requires tick > 0.0 && bestBid <= bestAsk
    ensures var q := ComputeQuote(bestBid, bestAsk, position, tick);
            var theo := TheoreticalPrice(bestBid, bestAsk, position);
            OnTick(q.bidPrice, tick) && OnTick(q.askPrice, tick) &&
            theo - FixedMinimumCredit - tick < q.bidPrice <= theo - FixedMinimumCredit &&
            theo + FixedMinimumCredit <= q.askPrice < theo + FixedMinimumCredit + tick
  {
  }

  /** On a crossed book the correction either fires, quoting the best ask as bid and the best bid as ask, or leaves the rounded prices. */
  lemma CrossedQuote(bestBid: real, bestAsk: real, position: int, tick: real)
    requires tick > 0.0
    ensures var q := ComputeQuote(bestBid, bestAsk, position, tick);
            var theo := TheoreticalPrice(bestBid, bestAsk, position);
            var bid := RoundDownToTick(theo - FixedMinimumCredit, tick);
            var ask := RoundUpToTick(theo + FixedMinimumCredit, tick);
            if CrossingCorrected(bid, ask, bestBid, bestAsk)
            then bestBid > bestAsk && q.bidPrice == bestAsk && q.askPrice == bestBid
            else q.bidPrice == bid && q.askPrice == ask
  {
  }

  /** Within the position limit both volumes are non-negative, and a full fill of either side stays within it. */
  lemma VolumesWithinLimits(position: int)
    requires -PositionLimit <= position <= PositionLimit
    ensures 0 <= BidVolume(position) <= QuotedVolume && position + BidVolume(position) <= PositionLimit
    ensures 0 <= AskVolume(position) <= QuotedVolume && position - AskVolume(position) >= -PositionLimit
  {
  }

  /** Book 9.90 / 10.10, flat position, tick 0.01: quote 9.85 / 10.15 for ten lots each side. */
  lemma FlatPositionExample()
    ensures TheoreticalPrice(9.90, 10.10, 0) == 10.00
    ensures ComputeQuote(9.90, 10.10, 0, 0.01) == Quote(9.85, 10.15, 10, 10)
  {
  }

  /** At the long limit the bid volume is zero and the ask volume is the full ten lots. */
  lemma LongLimitExample()
    ensures ComputeQuote(9.90, 10.10, PositionLimit, 0.01).bidVolume == 0
    ensures ComputeQuote(9.90, 10.10, PositionLimit, 0.01).askVolume == QuotedVolume
  {
  }
}

# Market-making bot: one decision cycle, in Dafny

This project models the per-cycle decision pipeline of a sentiment-aware
market-making bot (`trader-bot.py`). Each cycle the bot runs two filters over
the batch of social-media feeds. The risky filter keeps a feed when one of its
four risk-label scores is above 0.4; the optimistic filter keeps it when its
"Optimistic" score is above 0.5. Then, for each instrument in turn, the bot:

1. cancels the instrument's outstanding orders;
2. skips the instrument if the book lacks a bid or an ask;
3. prices a quote. This is the mid price, skewed by 0.005 per lot of position,
   then rounded to the tick 0.15 away on each side, with a correction for a
   crossed book. Volumes are capped by the position limit of 100.
4. picks one action:
   - flatten the whole position with an immediate-or-cancel (IOC) order, if a
     risky feed names the instrument;
   - otherwise buy at the best ask with an IOC order, if an optimistic feed
     names it;
   - otherwise place a passive bid and ask.

Modules, one per component:

- `Wrappers`: `Option`.
- `SeqFilter`: order-preserving filtering (`Keep`) and the subsequence relation.
- `WordMatch`: the `\b(word)\b` ignore-case search as a predicate on strings.
- `Sentiment`: feeds, the classifier collaborator and the two filter loops.
- `Relevance`: the alias table and the nested-loop relevance check.
- `Pricing`: the constants, tick rounding and the quote.
- `Orders`: the exchange as a class whose `log` records every cancel and
  insert request, plus the two emitters.
- `Cycle`: the per-instrument step, one cycle over all instruments, and the
  properties that relate them.

The methods follow the source's imperative style: append loops, nested loops
with an early return, and sequential calls to the exchange. Each method is
proved equal to a specification function: `RiskyFeeds`, `OptimisticFeeds`,
`Related`, `QuoteActions`, `IocActions`, `StepActions` or `CycleActions`. The lemmas
state what the source promises about those functions.

The constants are modelled with the source's values. The alias table of
lines 24-30 of `trader-bot.py` is `Relevance.AliasTable`. The risk labels and
the 0.4 threshold of line 99 are `Sentiment.RiskLabels` and
`Sentiment.RiskThreshold`. The "Optimistic" label and the 0.5 threshold of
line 108 are `Sentiment.OptimismLabels` and `Sentiment.OptimismThreshold`.
Lines 124-127 are `Pricing.QuotedVolume` (10), `Pricing.FixedMinimumCredit`
(0.15), `Pricing.PriceRetreatPerLot` (0.005) and `Pricing.PositionLimit` (100).

The alias table is modelled as written. Line 29 of `trader-bot.py` gives
"SAN" the alias "Pfizer's", so a post that names Pfizer's as a whole word is
related to Santander too (`Relevance.PfizersMentionRelatedToBoth`).

Three behaviours of the code are easy to misread; the model follows the code:

- The quoted volumes are not floored at 0. A negative or zero passive volume is
  only dropped by the `> 0` guards of `insert_quotes`. The optimistic IOC buy
  has no guard, so at the long limit it is sent for 0 lots
  (`Cycle.TakeAtLongLimitHasZeroVolume`).
- An instrument missing from the alias table is not simply treated as
  unmatched. Looking it up raises an error, but only when the feed list being searched is non-empty.
  The precondition `feeds != [] ==> instrumentId in AliasTable` states exactly
  that.
- The cancel is sent for every instrument before its book is even read. That
  includes instruments that are then skipped and instruments that flatten, not
  only those quoted passively.

The rounding helpers `round_down_to_tick` and `round_up_to_tick` come from a
`libs` module that is not part of this model. They are taken to return,
respectively, the largest multiple of the tick size that is at most the price,
and the smallest multiple that is at least the price. This is an assumption,
not the helpers' code.

## Model

| member | source | states |
|---|---|---|
| `WordMatch.ContainsWord` | trader-bot.py:115 | The search succeeds iff some position holds the word, ASCII case ignored, with a `\b` word boundary before and after it |
| `WordMatch.ContainsWordFrom` | trader-bot.py:115 | Scanning from a position succeeds iff a whole-word occurrence starts at or after that position |
| `WordMatch.WordAtIgnoresCase` | trader-bot.py:115 | Words that differ only in ASCII case match at exactly the same positions |
| `WordMatch.TextCaseIgnored` | trader-bot.py:115 | Texts that differ only in ASCII case contain the word at exactly the same positions |
| `WordMatch.NoMatchBeforeWordChar` | trader-bot.py:115 | An occurrence followed by a word character (inside a longer word) is not a match |
| `WordMatch.NoMatchAfterWordChar` | trader-bot.py:115 | An occurrence preceded by a word character (inside a longer word) is not a match |
| `SeqFilter.Keep` | trader-bot.py:95-101 | The kept list is no longer than the input and every kept element passes the test |
| `SeqFilter.KeepConcat` | trader-bot.py:98-100 | Filtering a concatenation filters each part, so appending one feed at a time builds the filter's result |
| `SeqFilter.KeepIsSubsequence` | trader-bot.py:98-100 | The filtered list is a subsequence of the input (order kept) |
| `SeqFilter.KeepMembership` | trader-bot.py:98-100 | An element is kept iff it occurs in the input and passes the test |
| `Sentiment.AnyAbove` | trader-bot.py:99 | `any(score > t ...)` holds iff some score exceeds the threshold |
| `Sentiment.MaxScore` | trader-bot.py:99 | The maximum is at least every score and is one of the scores |
| `Sentiment.AnyAboveIffMaxAbove` | trader-bot.py:99 | Some score exceeds the threshold iff the maximum score does |
| `Sentiment.IsRisky` | trader-bot.py:99 | A feed is risky iff one of its scores on the four labels Risky, Worried, Scared and Problematic exceeds 0.4 |
| `Sentiment.IsOptimistic` | trader-bot.py:108 | A feed is optimistic iff its score on the single label "Optimistic" exceeds 0.5, which is the any-above test on a one-label list |
| `Sentiment.RiskyIffMaxScoreAbove` | trader-bot.py:99 | A feed is risky iff its largest score on the four risk labels exceeds 0.4 |
| `Sentiment.GetRiskyFeeds` | trader-bot.py:94-101 | The loop returns exactly the risky-feed filter of the input; an empty input returns an empty list |
| `Sentiment.GetOptimisticFeeds` | trader-bot.py:103-110 | The loop returns exactly the optimistic-feed filter of the input; an empty input returns an empty list |
| `Sentiment.RiskyFeedsExactly` | trader-bot.py:94-101 | A feed is in the result iff it is in the input and risky; the result is a subsequence of the input |
| `Sentiment.OptimisticFeedsExactly` | trader-bot.py:103-110 | A feed is in the result iff it is in the input and its "Optimistic" score exceeds 0.5; the result is a subsequence of the input |
| `Relevance.SharedAliasIsPfizers` | trader-bot.py:24-30 | In the alias table, "Pfizer's" is the only alias listed under two instruments, and those are PFE and SAN |
| `Relevance.IsRelated` | trader-bot.py:112-117 | The nested loops return true iff some feed names some alias of the instrument as a whole word, ignoring case |
| `Relevance.NothingRelatedToNoFeeds` | trader-bot.py:112-117 | An empty feed list is related to no instrument, whether or not the instrument is in the table |
| `Relevance.RelatedByMember` | trader-bot.py:112-117 | A listed feed that mentions the instrument makes the list related to it |
| `Relevance.PfizersMentionRelatedToBoth` | trader-bot.py:24-30 | Any post that names "Pfizer's" as a whole word is related to both PFE and SAN, because the table lists "Pfizer's" under both |
| `Relevance.PfizerPostRelatedToSantander` | trader-bot.py:24-30 | The post "Pfizer's profits fall" is related to both PFE and SAN, because the table lists "Pfizer's" under SAN |
| `Relevance.TradingNotRelatedToIng` | trader-bot.py:27 | "Trading" contains "ing" but only inside a longer word, so it is not related to ING |
| `Pricing.RoundDownToTick` | trader-bot.py:158 | The result is on the tick grid, at most the price, and less than one tick below it |
| `Pricing.RoundUpToTick` | trader-bot.py:159 | The result is on the tick grid, at least the price, and less than one tick above it |
| `Pricing.RoundDownIsLargest` | trader-bot.py:158 | No multiple of the tick that is at most the price lies above the rounded-down price |
| `Pricing.MidPrice` | trader-bot.py:152 | The mid price is equidistant from the best bid and the best ask, and lies between them on an uncrossed book |
| `Pricing.TheoreticalPrice` | trader-bot.py:155 | The theoretical price equals the mid price when flat, and lies below it when long and above it when short |
| `Pricing.TheoreticalPriceDecreasing` | trader-bot.py:152-155 | A larger position gives a strictly lower theoretical price, 0.005 lower per lot |
| `Pricing.BidVolume` | trader-bot.py:168-171 | The bid volume is at most 10 and keeps position + volume within 100, and equals one of the two caps |
| `Pricing.AskVolume` | trader-bot.py:169-172 | The ask volume is at most 10 and keeps position − volume at or above −100, and equals one of the two caps |
| `Pricing.ComputeQuote` | trader-bot.py:150-172 | The quoted bid is strictly below the quoted ask for every book and position, and the volumes are the capped ones |
| `Pricing.UncrossedQuoteKeepsCredit` | trader-bot.py:158-163 | On an uncrossed book the correction never fires: both prices are on the grid, at least 0.15 from the theoretical price, and less than a tick beyond that |
| `Pricing.CrossedQuote` | trader-bot.py:161-163 | When the correction fires the book is crossed and the quote becomes bid = best ask, ask = best bid; otherwise the rounded prices stand |
| `Pricing.VolumesWithinLimits` | trader-bot.py:167-172 | With the position within ±100, both volumes lie in 0..10 and a full fill of either side stays within ±100 |
| `Pricing.FlatPositionExample` | trader-bot.py:150-172 | Book 9.90/10.10, flat, tick 0.01: theoretical price 10.00, quote 9.85/10.15, 10 lots each side |
| `Pricing.LongLimitExample` | trader-bot.py:168-172 | At position 100 the bid volume is 0 and the ask volume is 10 |
| `Orders.Exchange.DeleteOrders` | trader-bot.py:138 | Appends one cancel for the instrument to the request log and nothing else |
| `Orders.Exchange.InsertOrder` | trader-bot.py:35-41 | Appends one insert with the given price, volume, side and type to the request log and nothing else |
| `Orders.QuoteActions` | trader-bot.py:32-57 | Only limit orders for the instrument with positive volume; a bid iff the bid volume is positive, an ask iff the ask volume is positive, at the given prices and volumes; the bid before the ask |
| `Orders.IocActions` | trader-bot.py:59-84 | No order for a flat position; otherwise exactly one IOC order for the instrument with positive volume: a bid at the best ask when short, an ask at the best bid when long |
| `Orders.IocFlattensExactly` | trader-bot.py:59-84 | Once the flattening order fills in full, the position is exactly 0 |
| `Orders.QuoteVolumes` | trader-bot.py:32-57 | Filling the quotes buys the bid volume if positive (else nothing) and sells the ask volume if positive (else nothing) |
| `Orders.InsertQuotes` | trader-bot.py:32-57 | Appends exactly the passive-quote orders to the log, in order |
| `Orders.InsertIoc` | trader-bot.py:59-84 | Appends exactly the flattening order, if any, to the log |
| `Cycle.DecisionActions` | trader-bot.py:174-187 | At most two orders, all inserts for the instrument. A related risky feed gives only IOC orders, one unless flat. Otherwise a related optimistic feed gives one IOC bid at the best ask for the bid volume. Otherwise only limit orders |
| `Cycle.ProcessInstrument` | trader-bot.py:136-187 | Appends exactly the step's actions to the log: the cancel, then (for a quotable book) the chosen orders |
| `Cycle.CancelFirst` | trader-bot.py:137-138 | The step's first request is the cancel for the instrument, and every later one is an insert for the same instrument |
| `Cycle.OneSidedBookSkipped` | trader-bot.py:140-144 | A missing or one-sided book yields the cancel and nothing else |
| `Cycle.StepPriority` | trader-bot.py:174-187 | A related risky feed flattens (whatever the optimistic feeds), else a related optimistic feed sends one IOC bid at the best ask for the bid volume, else the passive quotes are sent |
| `Cycle.UnrelatedFeedsQuoteBothSides` | trader-bot.py:186-187 | With no related feed and the position strictly within ±100, exactly a bid and an ask limit order follow the cancel, the bid priced below the ask |
| `Cycle.TakeAtLongLimitHasZeroVolume` | trader-bot.py:178-185 | At position 100 the optimistic take is an IOC bid of volume 0, since the branch has no positive-volume guard |
| `Cycle.CancelTradesNothing` | trader-bot.py:138 | The cancel adds nothing to the bought or sold volume |
| `Cycle.DecisionRespectsPositionLimit` | trader-bot.py:167-187 | Each of the three decisions keeps a full fill of its buys, and separately of its sells, within ±100 |
| `Cycle.StepRespectsPositionLimit` | trader-bot.py:136-187 | Whatever the step sends, a position within ±100 stays within ±100 after a full fill of its buys or of its sells |
| `Cycle.RunCycle` | trader-bot.py:131-187 | One loop iteration appends, instrument by instrument in list order, exactly each instrument's step actions, computed from the filtered feeds of the batch |
| `Cycle.NoSignalNoIoc` | trader-bot.py:174-187 | When both filtered lists are empty the cycle sends no IOC order at all |
| `Cycle.RiskVerdict` | trader-bot.py:133-174 | The relevance check on the risky feeds succeeds iff some feed of the batch is risky and mentions the instrument |
| `Cycle.OptimismVerdict` | trader-bot.py:134-178 | The relevance check on the optimistic feeds succeeds iff some feed of the batch is optimistic and mentions the instrument |
| `Cycle.RiskyMentionFlattens` | trader-bot.py:174-177 | Once a risky feed mentions the instrument, the step is the cancel plus the flattening order, and a full fill leaves the position at 0 |
| `Cycle.WorriedClassifierVerdicts` | trader-bot.py:99-108 | Under a classifier scoring 0.6 on "Worried" and 0.1 elsewhere, every feed is risky and none is optimistic |
| `Cycle.CiscoPostMentionsCisco` | trader-bot.py:25 | "Cisco is in trouble" names Cisco as a whole word |
| `Cycle.CiscoInTroubleFlattens` | trader-bot.py:174-177 | For that post, CSCO at position 30 with book 9.90/10.10 yields the cancel and one IOC ask of 30 lots at 9.90 |

## Left out

- Exchange connectivity is not modelled: creating and connecting the exchange,
  `get_instruments`, `poll_new_social_media_feeds`, `get_last_price_book` and
  `get_positions`. Each becomes a parameter: the instrument list, the feed
  batch, and one `Observation` per instrument (its last book, if any, and the
  position).
- The error raised by `get_positions()[instrument_id]` when the position is
  missing is not modelled, because every observation carries a position.
- The exchange's answer to an insert is not modelled: rejection of an
  off-tick price or a non-positive volume, and fills. The log records what was
  requested, and "filled" in the lemmas means a hypothetical full fill.
- The zero-shot classifier model is a parameter `classify`. The only thing
  assumed of it is that it returns one score per candidate label. The sorted
  order of the pipeline's output is irrelevant here, since the code only uses
  `any` over all scores or the single score of a one-label call.
- `time.sleep` is not modelled: the 0.05 s delay after each insert made by
  `insert_quotes` and `insert_ioc` (the optimistic IOC buy and the cancel are
  followed by no delay), the 10 s cooldown after a flatten, and the 2 s refresh
  between cycles. Neither are
  `clear_output`, logging, or `print_positions_and_pnl`. They affect timing and
  display only.
- The unbounded `while True` loop is not modelled; `Cycle.RunCycle` is one
  iteration.
- `analyse_feeds` is left out: its call is commented out, and it uses `mean`,
  which is never imported.
- IEEE floating point is not modelled. Prices, scores and thresholds are exact
  reals, so float artefacts are not captured. For example, 1.15 / 0.01 evaluates to
  114.99999999999999 in doubles, which floors to 114.
- The rounding helpers of `libs` are not part of this model. Their assumed
  meaning is stated above.
- Regular-expression matching is modelled only for ASCII text and for aliases
  without metacharacters, which covers every alias in the table. Unicode `\w`
  and Unicode case folding are not modelled. Nor is the order in which the
  engine tries positions, since only success or failure is observed.
- Exceptions from the exchange or the classifier, and their propagation, are
  not modelled.

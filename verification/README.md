# A verified model of the order-book exchange

The repository is a Substrate runtime with an on-chain limit-order-book exchange. This project models
the three parts that make it up, the market data beside them, and proves what they promise together:

- the **matching engine** (`pallets/trade/src/lib.rs`): admission of limit orders, the matching loop,
  the integer arithmetic of one fill, cancellation;
- the **price list** (`pallets/trade/src/linked_price_list.rs`): a storage map that holds a circular
  doubly linked list with three sentinels, a queue of orders and two aggregate amounts per price;
- the **token ledger** (`pallets/tokens/src/lib.rs`): total, free and frozen balances;
- the **one-day market data**: per-block buckets and the rolling aggregates of the block hooks.

The code that works in place is modelled by classes whose fields are the storage maps: `TokenLedger`,
`PriceList`, `Market` and `Exchange`. Each of their methods is proved to compute what a function on
plain values says. The plain values are a `World` (ledger, pairs, orders, books, trades), in which a
book is two sorted sequences of levels, and a state machine over it (`Transitions`). The main results
are lemmas about that state machine, so they hold of the classes.

| module | what it is |
|---|---|
| `Base`, `Words`, `Sums`, `Orders` | shared vocabulary, `u128` arithmetic, sums over maps, orders and their terms |
| `FillMath` | admission and fill arithmetic |
| `Ledger`, `Tokens` | the ledger as a value; the class that updates it |
| `Links`, `Books`, `PriceLists` | the linked list in its map; the book it spells out; the class that rewrites it |
| `Settlement`, `World`, `Matching`, `TradeInvariants`, `Engine` | one trade, the invariant, and the reference matcher |
| `Operations`, `Transitions` | what the calls do, and that each keeps everything in order over all runs |
| `LifeCycle`, `TradeRules`, `Conservation` | what follows for orders, balances, trades and supplies in every reachable state |
| `Reductions`, `Aggregates`, `Records`, `Dust` | the amounts that the list stores per level: what a match takes off, what runs leave there |
| `TimePriority` | who is traded with, in terms of prices and of the order of the calls |
| `Guarantees`, `Outcomes` | what the exchange promises as a whole; how every call ends |
| `SampleRuns`, `FailingRuns` | runs that show what can happen, and what the code does not withstand |
| `MarketData`, `Exchange` | the market data with its hooks; the trade pallet as a whole |

## What is assumed

The theorems about runs are about *covered* calls (`Transitions.Covered`): limit orders of any amount,
type and parties, cancellations, token issues and transfers, and new pairs, with three exclusions. The
code fails in the excluded cases, or may fail; the lemmas named here say when.

- **The largest price.** The comment at `pallets/trade/src/lib.rs:997` asks for a price below the
  maximum, the code at line 998 admits it. It is the key of the top sentinel. A covered order at that
  price is one that is filled at once, or refused. Otherwise a buy goes round the matching loop forever, and
  a sell queues itself at the top sentinel, which leaves no list of any book (`NeverEnds`,
  `AppendWellFormed`). The loop's own end test (lines 839-843) names the sentinel of the other side, so
  what stops it on an empty side is `price_matched`; `LoopGuardExact` says exactly when. `LargestPriceSticks`
  is a run with such a bid, and such an ask.
- **Cancellation of the only order of a level.** `remove_order` writes a level back after unlinking it
  (`pallets/trade/src/linked_price_list.rs:263-266`). After a cancellation the stored map is the list of
  some book exactly if the level keeps an order (`WithdrawWellFormed`), and covered cancellations are
  those. What the code does to the storage is proved for all of them (`Exchange.CancelLimitOrder`).
  `LoneCancelBreaks` is a run with another one.
- **Calls in which a sum or a product leaves `u128`.** Every sum that the ledger credits and every product
  of `calculate_ex_amount` is computed in `u128`. `check_balance_overflow`
  (`pallets/tokens/src/lib.rs:250-257`) adds in `u128` before it compares, so it never reports anything:
  built without overflow checks, the runtime goes on with a wrapped number; built with them, it stops. In
  the state machine such a call has the outcome `ArithmeticOverflow`, and no run contains one. The classes
  compute what the runtime does, in wrapping words, and agree with the state machine wherever the outcome is
  another one (`WrappingAgrees`, `WrappingFillAgrees`).

When does that happen? A due trade goes through if and only if none of its products and neither of the two
balances that it credits leaves `u128`, whoever its parties are (`TradeExact`, `SettleExact`), and so does a
whole limit order, for which there is no other way to fail once it is acceptable (`AcceptanceExact`).
As long as nobody has traded with himself, balances stay within the supplies, so that a trade with somebody
else goes through if and only if the first product of its fill is a `u128` (`AnotherExact`,
`TransferSucceeds`); the other products are no larger (`ProductsBounded`). The first product is at most the
buyer's remaining offer times the price factor (`FirstProductBounded`). So nothing fails in a pair whose base
supply times the price factor is a `u128` (`Capped`, `NeverFails`, `MatchedSucceeds`).
Freezing, unfreezing and cancelling never leave `u128` (`FreezeExact`, `UnfreezeExact`, `CancelReady`).
An order with its owner's own resting order in its way may: `TradeWithSelfOverflows` is a covered run and
such an order, and `WrappingToItself` says what the runtime makes of it, namely exactly how far the total then
is from the supply and when Balance = Free + Freezed is lost.

Two more failings of the code are not excluded but stated exactly:

- **Trading with oneself.** `order_match` does not compare owners, and `do_transfer` with equal parties
  credits the amount it has just debited on top of the old balance (`pallets/tokens/src/lib.rs:169-180`),
  while `transfer` excludes that case (line 125). Over all covered runs, all that is held of the tokens is
  their supply if and only if no trade was one of an account with itself (`SupplyConserved`); for one
  call, if and only if none of the orders that it trades with, the first ones in price-time priority, is
  the sender's (`LimitOrderSoundExact`). `TradeWithSelf` is a covered run after which twice the supply is
  there. Over covered runs, such trades included, everything else about orders, frozen funds and books holds.
- **Amounts of levels.** Two things make a level's stored amounts differ from what its orders want and offer.
  `do_cancel_limit_order` passes the order's total amounts to the list (line 809). And what a filled order
  did not need is unfrozen, but not taken off its level. A `Level` keeps a record of both, and `StoredExact`
  says what is stored.
  - *Cancellations.* One leaves all amounts right, or exact, if and only if the canceled order was never
    traded (`CancelRightExact`).
  - *Trades.* A level that survives a trade stays exact if and only if the trade does not give the resting
    order all that it still wants for less than it still offers (`TradeDustExact`). A limit order leaves all
    amounts exact if and only if none of its trades does that at a price that survives (`MatchedDustExact`).
    `DustStays` is a covered run after which a level stores 3 where its orders offer 2.
  - *Runs.* A call keeps all amounts exact if and only if it neither leaves such dust nor cancels a traded
    order (`NextExact`, `RunExact`). Over all covered runs, what is on a level's record is what filled orders
    did not need, by the trade log, less what canceled orders had given, since the level was opened
    (`LevelRecorded`). Where no traded order was canceled, this is never negative (`RunRight`).
  - *Words.* Stored amounts are `u128`, and dust counts. What is stored covers what the orders of a level
    offer if and only if that and the excess on record, modulo 2^128, are a `u128` together
    (`StoredCoversExact`). What bids want in a capped pair always fits (`BidAmountsExact`); what asks want does
    if the supply of the quote token at the level's price is a `u128` (`AskAmountsExact`), and there is a run
    after which it does not (`AskAmountsWrap`). Adding to a stored amount is exact if and only if the sum is a
    `u128` (`PushedExact`); nothing stored ever wraps, over runs that cancel no traded order, if and only if
    that was so of everything that was queued (`RunUnwrapped`).
  - *Subtractions.* `update_reduce_amount` can go below zero. A match never does so if and only if each level
    stores, when the match begins, all that it takes there (`NeverUnderflowsExact`), which is so whenever the
    levels store as much as their orders offer and want (`NeverReducedBelowZero`). Where no traded order was
    canceled, they do as long as all that was queued could be added (`UnwrappedNeverReduced`), or if nobody
    has traded with himself and the supply of the offered token leaves room for the logged dust
    (`SupplyNeverReduced`). It can be lost between two accounts without any cancellation: in
    `StoredFallsShort` dust makes a stored amount wrap, and the bid that buys the level's only ask takes off
    more than is stored.

That covered runs do trade is shown by one of them (`SomeRunTrades`).

Further conventions:

- Hashes are names, and a hash that a pallet computes is a fresh name passed to the call. Nonces and
  indices never run out.
- A call that returns an error is rolled back by the framework. A covered call needs no rolling back: the
  methods of `Exchange` fail, if at all, before they have changed anything.
- The price factor and the number of blocks per day are arbitrary positive constants; the sample runs need
  up to six times the price factor to be a `u128`, `StoredFallsShort` sixteen times, and a factor above 2.
- Volumes are stored modulo 2^128, and are right if and only if they are `u128` (`VolumeIs`): tokens can be
  traded more than once a day, so no supply bounds them.
- The fields of the pallet's `TradePair` are divided: base and quote belong to `Exchange.pairs`, the
  statistics to `Market.tradePairs`.

Where the text and the code differ, the code is followed: apart from the price bound above, the
comment at `pallets/trade/src/linked_price_list.rs:55` and the repository's own README put the top
sentinel at the smallest price, the code at the largest. The price vectors are meant to cover one day, but
the hook drops an element in every block after the chain's first day, whether or not they are full;
`CoverageExact` says for which pairs they cover what they should.

## Model

| member | source | states |
|---|---|---|
| `FillMath.AdmissionExact` | pallets/trade/src/lib.rs:1008-1034 | the floor-divide round trip passes if and only if the conversion leaves no remainder and its result is between 1 and the `u128` maximum; then the slack of the order's type holds |
| `FillMath.RoundTripExact` | pallets/trade/src/lib.rs:1017-1028 | a floor division followed by the inverse one is the identity exactly when the first left no remainder |
| `FillMath.FillSafe` | pallets/trade/src/lib.rs:1056-1110 | given both slacks and a trade price between the limits, a fill is computed inside `u128` if and only if its first product fits; it is then at the trade price, positive, within all four remainders, fills one order, and keeps both slacks. At the price means: the order that is filled gets all that it wants, and gives what that is worth within less than one unit, rounded up unless the other order does not want as much |
| `FillMath.RoundedExact` | pallets/trade/src/lib.rs:1080-1108 | an amount that is worth a whole number of units is exchanged for exactly that many |
| `FillMath.LeadingProductBounded` | pallets/trade/src/lib.rs:1070-1099 | the first product of a fill is at most the buyer's remaining offer times the price factor |
| `FillMath.ProductsExact` | pallets/trade/src/lib.rs:1070-1099 | a fill is computed if and only if none of the products on its path leaves `u128` |
| `FillMath.ProductsBounded` | pallets/trade/src/lib.rs:1070-1099 | under both slacks, none of these products is larger than the first one |
| `FillMath.WrappingFillAgrees` | pallets/trade/src/lib.rs:1056-1110 | a fill none of whose products leaves `u128` is what the runtime computes in wrapping words |
| `Settlement.TradeFill` | pallets/trade/src/lib.rs:1056-1110 | the same for two stored orders of opposite type: whenever the fill is computed it suits both and is at the maker's price, and it is computed exactly when the first product fits |
| `Settlement.SettleExact` | pallets/trade/src/lib.rs:872-942 | all steps of a trade between any two funded orders, the same account's included, go through if and only if its products and the two balances that it credits are `u128`; nothing else can fail |
| `Tokens.TokenLedger.DoIssue` | pallets/tokens/src/lib.rs:133-160 | the step-by-step update reaches the ledger in which the sender holds, free, the whole supply of the new token |
| `Tokens.TokenLedger.DoTransfer` | pallets/tokens/src/lib.rs:163-184 | the four balance updates carry out the transfer in wrapping `u128` words, equal parties included, or fail with the error of the check that fails and change nothing |
| `Tokens.TokenLedger.Transfer` | pallets/tokens/src/lib.rs:123-127 | a transfer to oneself is refused, any other one is `do_transfer` |
| `Tokens.TokenLedger.DoFreeze` | pallets/tokens/src/lib.rs:187-201 | moves an amount from free to frozen, in wrapping `u128` words, or fails and changes nothing |
| `Tokens.TokenLedger.DoUnfreeze` | pallets/tokens/src/lib.rs:204-218 | moves an amount from frozen to free, in wrapping `u128` words, or fails and changes nothing |
| `Tokens.TokenLedger.EnsureFreeBalance` | pallets/tokens/src/lib.rs:221-228 | passes exactly when token and account are known and the free balance suffices |
| `Tokens.TokenLedger.UpdateBalance` | pallets/tokens/src/lib.rs:260-266 | writes one of the three balances and leaves the other two alone |
| `Ledger.WrappingAgrees` | pallets/tokens/src/lib.rs:163-218 | a transfer, freeze or unfreeze none of whose sums leaves `u128` is carried out in exact arithmetic |
| `Ledger.WrappingToItself` | pallets/tokens/src/lib.rs:163-184 | what any transfer to oneself does, wrapped or not: the total grows by the amount, less 2^128 if the balance wraps, and Balance = Free + Freezed survives unless the balance wraps and the free balance does not |
| `Ledger.WrappingMoves` | pallets/tokens/src/lib.rs:163-184 | between different accounts any transfer of what the sender has takes the amount off there, adds it modulo 2^128 where it arrives, and changes nothing else |
| `Ledger.WrappingHolds` | pallets/tokens/src/lib.rs:187-218 | freezing and unfreezing take the amount off the free and the frozen balance, and add it to the other one modulo 2^128 |
| `Ledger.WithinSupply` | pallets/tokens/src/lib.rs:250-257 | where balances add up to the supplies, no account, and no two accounts together, hold more than the supply, so no credit between two accounts leaves `u128` |
| `Ledger.FreezeExact` | pallets/tokens/src/lib.rs:187-201 | freezing succeeds if and only if the free funds suffice, never leaves `u128`, and keeps totals and Balance = Free + Freezed |
| `Ledger.UnfreezeExact` | pallets/tokens/src/lib.rs:204-218 | unfreezing succeeds if and only if as much is frozen, and keeps totals and Balance = Free + Freezed |
| `Ledger.TransferTotals` | pallets/tokens/src/lib.rs:163-184 | a transfer whose sums are `u128` keeps every token's total, except that one to oneself creates the amount |
| `Ledger.TransferExact` | pallets/tokens/src/lib.rs:163-184 | a transfer of free funds, to anybody, leaves `u128` if and only if the receiver's balance plus the amount does |
| `Ledger.TransferSound` | pallets/tokens/src/lib.rs:163-184 | a transfer that goes through inside `u128` keeps the ledger sound if and only if it is not a positive one to oneself |
| `Ledger.TransferSucceeds` | pallets/tokens/src/lib.rs:163-184 | between different accounts a transfer succeeds exactly when the sender has the free funds |
| `Ledger.IssueSound` | pallets/tokens/src/lib.rs:133-160 | issuing a new token keeps the ledger sound |
| `Ledger.StepsSoundExact` | pallets/tokens/src/lib.rs:133-218 | after any run of issues of new tokens, transfers, freezes and unfreezes in which no sum leaves `u128`, the balances add up to the supplies if and only if nobody has transferred anything to himself |
| `Links.LinksAreInverse` | pallets/trade/src/linked_price_list.rs:97-131 | in a linked map every item's neighbours exist and point back at it |
| `Links.UnlinkLinked` | pallets/trade/src/linked_price_list.rs:236-250 | taking an inner item out and joining its neighbours leaves a linked map of the chain without it |
| `Links.InsertLinked` | pallets/trade/src/linked_price_list.rs:190-213 | rewriting two neighbours around a new item leaves a linked map of the chain with it |
| `Books.InitialRepresents` | pallets/trade/src/linked_price_list.rs:97-131 | the three sentinels that `read` writes are the empty book |
| `Books.StoredKeys` | pallets/trade/src/linked_price_list.rs:97-131 | a price is stored if and only if it is the price of a level, so the re-initialising fallback never fires on a listed price |
| `Books.BestPrice` | pallets/trade/src/linked_price_list.rs:219-225 | next to the head stands the best price of a side, or its sentinel exactly when the side is empty |
| `Books.WalkStops` | pallets/trade/src/linked_price_list.rs:178-188 | the walk of `append` stops behind the one place where the new price keeps the side sorted |
| `Words.WrapIsRemainder` | pallets/trade/src/linked_price_list.rs:228-233 | what is kept of an amount is its remainder modulo 2^128 |
| `Words.OperatorsWrap` | pallets/trade/src/lib.rs:1070-1099 | addition, subtraction and multiplication of `u128` words compute modulo 2^128 |
| `Words.WrapExact` | pallets/trade/src/linked_price_list.rs:228-233 | adding to and subtracting from wrapped amounts gives the wrapped exact amount |
| `Books.AppendRepresents` | pallets/trade/src/linked_price_list.rs:139-216 | both branches of `append`, pushing into a stored price and linking in a new one, give the list of the book with the order queued last at its price |
| `Books.PushedLast` | pallets/trade/src/linked_price_list.rs:139-150 | at a stored price the new order stands behind all that are queued there; no other queue changes |
| `Books.LinkedInAlone` | pallets/trade/src/linked_price_list.rs:190-213 | a new price gets a queue of this order alone; no other queue changes |
| `Books.SortedEnqueue` | pallets/trade/src/linked_price_list.rs:139-216 | queueing at a price that the other side does not match keeps the prices strictly increasing and the book uncrossed |
| `Books.ReduceRepresents` | pallets/trade/src/linked_price_list.rs:228-233 | reducing the stored amounts gives the list of the book with the exact amounts reduced |
| `Books.UnlinkRepresents` | pallets/trade/src/linked_price_list.rs:236-250 | removing an item gives the list of the book without that level |
| `Books.WithdrawRepresents` | pallets/trade/src/linked_price_list.rs:253-271 | withdrawing an order that shares its level, whatever the amounts, gives the list of the book without it |
| `Books.RetainExact` | pallets/trade/src/linked_price_list.rs:258 | what stood before and behind the removed order is what is left, in its order |
| `Books.WithdrawnQueue` | pallets/trade/src/linked_price_list.rs:253-271 | so it is in the stored queue after a withdrawal, whether or not the level survives; no other queue changes |
| `Books.WithdrawWellFormed` | pallets/trade/src/linked_price_list.rs:253-271 | after a withdrawal of any order and amounts the map is the list of some book if and only if the level keeps an order |
| `Books.CleanupPriority` | pallets/trade/src/linked_price_list.rs:274-319 | the match-time cleanup removes the maximal prefix of finished orders in price-then-time order |
| `Books.CleanupLevels` | pallets/trade/src/linked_price_list.rs:274-319 | it unlinks exactly the leading levels with finished orders only and changes at most the queue of the next one |
| `Books.EmptiedMaximal` | pallets/trade/src/linked_price_list.rs:306-318 | the level at which it stops still has an unfinished order |
| `Books.AllDoneDropped` | pallets/trade/src/linked_price_list.rs:274-292 | a queue is emptied if and only if all its orders are finished |
| `PriceLists.PriceList.Read` | pallets/trade/src/linked_price_list.rs:97-131 | returns a stored entry and changes nothing; for a missing one it writes the sentinels and returns the head |
| `PriceLists.PriceList.ReadHead` | pallets/trade/src/linked_price_list.rs:82-85 | sets up the list of a new pair, and returns the head linked to the best bid and the best ask |
| `PriceLists.PriceList.FindPrevious` | pallets/trade/src/linked_price_list.rs:158-188 | walks from a side's low end and ends at the item behind which the price belongs |
| `PriceLists.PriceList.Append` | pallets/trade/src/linked_price_list.rs:139-216 | queues the order on its side of the book, last in the stored queue of its price, leaves every other stored queue alone, and keeps the list well-formed |
| `PriceLists.PriceList.UpdateReduceAmount` | pallets/trade/src/linked_price_list.rs:228-233 | lowers one level's amounts and keeps the list well-formed |
| `PriceLists.PriceList.RemoveItem` | pallets/trade/src/linked_price_list.rs:236-250 | unlinks an item if it is stored and does nothing otherwise |
| `PriceLists.PriceList.RemoveOrdersInOneItem` | pallets/trade/src/linked_price_list.rs:274-292 | drops the finished orders in front of a level, unlinks it exactly if none is left, and errs otherwise |
| `PriceLists.PriceList.RemoveOrderMatchPrice` | pallets/trade/src/linked_price_list.rs:295-319 | leaves the side cleaned of its finished front and the other side alone |
| `PriceLists.PriceList.RemoveOrder` | pallets/trade/src/linked_price_list.rs:253-271 | the map it leaves in every case, including the level that is written back after it was unlinked; the other orders of the stored queue keep their places |
| `Settlement.SettleSafe` | pallets/trade/src/lib.rs:872-942 | between different accounts, in a sound ledger that backs both orders, all steps of a trade go through if and only if the first product of its fill is a `u128`; the ledger stays sound |
| `Settlement.FirstProductBounded` | pallets/trade/src/lib.rs:1070-1099 | that product is at most what the buyer still offers times the price factor |
| `Settlement.SettleEffect` | pallets/trade/src/lib.rs:872-942 | a trade that goes through inside `u128`, in any ledger and between any accounts, fills one of its orders, unfreezes exactly what leaves the two, dust included, and keeps Balance = Free + Freezed |
| `Settlement.SettleTotals` | pallets/trade/src/lib.rs:907-910 | one that goes through inside `u128` keeps every total, except that a trade of an account with itself creates what it moves |
| `Settlement.SettleSoundExact` | pallets/trade/src/lib.rs:907-910 | one that goes through inside `u128` keeps a sound ledger sound if and only if its parties differ, and takes nothing out of circulation that a trade with oneself has put there |
| `Matching.NeverFails` | pallets/trade/src/lib.rs:868-942 | for an order that is being matched in a sound ledger, in a pair whose base supply times the price factor is a `u128`, if the front order of the crossing level is somebody else's, every check, subtraction and transfer of the next trade succeeds |
| `Matching.AnotherExact` | pallets/trade/src/lib.rs:868-942 | in any pair, it does if and only if the first product of its fill is a `u128` |
| `Matching.TradeExact` | pallets/trade/src/lib.rs:868-942 | for an order that is being matched, whoever owns the front order of the crossing level, the next trade goes through if and only if its products and credited balances are `u128` |
| `TradeInvariants.LimitFromSlack` | pallets/trade/src/lib.rs:912-916 | slack in what is left of an order is the same as the limit price respected in what it has traded |
| `TradeInvariants.BooksKept` | pallets/trade/src/lib.rs:866-954 | a trade keeps every book sorted, uncrossed and one-sided per level, and every level's amounts at what its orders want and offer, up to what is on record |
| `TradeInvariants.BackedKept` | pallets/trade/src/lib.rs:907-942 | a trade keeps every frozen balance equal to what its owner's unfinished orders offer |
| `TradeInvariants.TradeKeepsPoised` | pallets/trade/src/lib.rs:866-987 | one trade keeps everything but, perhaps, conservation, so matching may go on |
| `TradeInvariants.TradeSoundExact` | pallets/trade/src/lib.rs:907-910 | the next trade, if it goes through inside `u128`, keeps conservation if and only if it is one with somebody else |
| `Engine.TradeProgress` | pallets/trade/src/lib.rs:860-987 | each trade is with the front of the priority queue and fills the incoming order or removes that front |
| `Engine.CleanedAfterTrade` | pallets/trade/src/lib.rs:951-954 | reducing the best level and cleaning up is the same as the reference matcher's step |
| `Engine.MatchUnfold` | pallets/trade/src/lib.rs:860-987 | matching goes on exactly while the order crosses the best opposite price and the trade goes through |
| `Engine.MatchStops` | pallets/trade/src/lib.rs:860-987 | matching keeps everything in order and stops before the first trade that is not due or leaves `u128` |
| `Engine.MatchFitsExact` | pallets/trade/src/lib.rs:860-987 | matching ends filled or uncrossed if and only if all products and credited balances of the trades on its way are `u128` |
| `Engine.MatchRests` | pallets/trade/src/lib.rs:860-987 | an order of such a pair that meets only orders of others is matched until it is filled or nothing crosses, and conservation is kept |
| `Engine.MatchSoundExact` | pallets/trade/src/lib.rs:860-987 | matching keeps conservation if and only if none of the orders that it trades with is the owner's |
| `Engine.MeetsOthersExact` | pallets/trade/src/lib.rs:860-987 | if all trades go through, an order meets only orders of others if and only if it trades only with such |
| `Engine.OthersOnlyMeets` | pallets/trade/src/lib.rs:860-987 | it does if none of its owner's orders stands on the other side at a price that it accepts |
| `Engine.PriceTimePriority` | pallets/trade/src/lib.rs:860-987 | the makers hit are, in order, the first ones of the levels' queues, best price first, and the queue left begins behind them |
| `TimePriority.LevelInTime` | pallets/trade/src/linked_price_list.rs:139-150 | over all runs, cancellations and trades included, the orders of every queue stand in the order of the calls that created them |
| `TimePriority.TradesInTime` | pallets/trade/src/lib.rs:860-987 | after any run, every trade of a new order is with the unfinished order of the other side that has the best price and, at that price, was created first |
| `Operations.PlaceKeeps` | pallets/trade/src/lib.rs:711-717 | freezing the funds of a new order and storing it makes it ready to be matched and moves no money between accounts |
| `Operations.EnqueueKeeps` | pallets/trade/src/lib.rs:737-741 | queueing the rest of a matched order puts everything back in order |
| `Operations.FilledKeeps` | pallets/trade/src/lib.rs:737-744 | so does an order that was filled |
| `Operations.LevelCanceled` | pallets/trade/src/lib.rs:800-830 | a cancellation leaves a correct level if and only if the level keeps an order |
| `Operations.WithdrawalExact` | pallets/trade/src/lib.rs:809 | it leaves one whose amounts are right if and only if, moreover, the order was never traded |
| `Operations.CancelBacked` | pallets/trade/src/lib.rs:811-822 | unfreezing the remaining amount succeeds wherever the frozen funds back the orders |
| `Operations.CancelKeeps` | pallets/trade/src/lib.rs:800-830 | canceling an order, traded or not, whose level keeps another one keeps everything in order and moves no money between accounts |
| `Transitions.TradePairKeeps` | pallets/trade/src/lib.rs:631-684 | creating a pair of any two tokens keeps everything in order |
| `Transitions.MatchedKeeps` | pallets/trade/src/lib.rs:711-744 | a whole limit order, placed, matched inside `u128` and queued, keeps everything in order, whoever it traded with |
| `Transitions.MatchedExact` | pallets/trade/src/lib.rs:711-744 | whether it goes through is decided by the products and credited balances of its trades alone |
| `Transitions.MatchedSucceeds` | pallets/trade/src/lib.rs:711-744 | in a sound ledger, and a pair whose base supply times the price factor is a `u128`, it does if the order meets only orders of others |
| `Transitions.UnfinishedInList` | pallets/trade/src/lib.rs:800-812 | every unfinished order is in the level where a cancellation looks for it |
| `Transitions.CancelReady` | pallets/trade/src/lib.rs:800-830 | a cancellation by the owner of an unfinished order always succeeds, also after trades with oneself |
| `Transitions.NextKeeps` | pallets/trade/src/lib.rs:506-542 | every covered call keeps everything in order |
| `Transitions.RunKeeps` | pallets/trade/src/lib.rs:506-542 | everything is in order in every state that a run of covered calls leads to |
| `LifeCycle.RunEvolves` | pallets/trade/src/lib.rs:129-132 | from any moment of a run on, orders keep their terms and only shrink, the trade log only grows, and a filled or canceled order never changes again |
| `LifeCycle.SettleMoves` | pallets/trade/src/lib.rs:907-910 | in a trade inside `u128` each party's balance changes by exactly what it gives and gets, nobody else's changes, and an account that trades with itself gets both shares and gives neither |
| `LifeCycle.BalancesExplained` | pallets/trade/src/lib.rs:907-936 | in every reachable state each balance is what was issued and transferred plus what the trades moved |
| `TradeRules.TradeTerms` | pallets/trade/src/lib.rs:866-958 | over all runs every trade is between a buy and a sell of its pair, at the maker's price, which suits the taker; it moves something both ways, and its amounts are worth each other at that price: the order that it fills got, by the log, all that it still wanted, for what that is worth within less than one unit, rounded up unless the other order did not want as much |
| `TradeRules.CanceledByOwner` | pallets/trade/src/lib.rs:800-812 | nothing but its owner's cancellation cancels an order, and only an unfinished one |
| `TradeRules.OnePairPerTokens` | pallets/trade/src/lib.rs:631-648 | over all runs two tokens have at most one pair, in one direction, listed by the owner of one of them |
| `Conservation.RunSoundExact` | pallets/trade/src/lib.rs:907-910 | over all runs the ledger is sound, and nothing is in circulation that was not issued, if and only if no trade was one of an account with itself |
| `Guarantees.SupplyConserved` | pallets/tokens/src/lib.rs:133-218 | over all runs the balances of every token add up to its supply if and only if nobody has traded with himself, and Balance = Free + Freezed for every account |
| `Guarantees.FundsBacked` | pallets/trade/src/lib.rs:715-717 | over all runs a frozen balance is exactly what the account's unfinished orders still offer |
| `Guarantees.FreeExplained` | pallets/trade/src/lib.rs:912-936 | over all runs what an account has free is what was issued, transferred and traded to it less what its unfinished orders still offer, so all else that was frozen has come back |
| `Guarantees.BookUncrossed` | pallets/trade/src/lib.rs:737-741 | over all runs bids stand from the highest price down and asks from the lowest up, every bid below every ask, and a level queues unfinished orders of one side, pair and price, with the amounts on record |
| `Guarantees.UnfinishedQueued` | pallets/trade/src/lib.rs:737-744 | over all runs every unfinished order waits in the queue of its price |
| `Guarantees.OrdersAccounted` | pallets/trade/src/lib.rs:899-942 | over all runs an order's trades respect its limit price in total; its offer is what it paid, what its trades and its cancellation unfroze, and what it has frozen; it got what it no longer wants, a filled one all; and trades unfreeze something only by filling it |
| `Guarantees.AcceptanceExact` | pallets/trade/src/lib.rs:686-756 | in every reachable state a limit order is accepted if and only if its amounts convert exactly, the pair exists, the funds are there and no product or credited balance of its trades leaves `u128`; the last is so if nobody has traded with himself, the base supply times the price factor is a `u128`, and the order meets only orders of others |
| `Guarantees.LimitOrderSoundExact` | pallets/trade/src/lib.rs:860-987 | a limit order that is carried out keeps conservation if and only if none of the orders that it trades with, the first ones in price-time priority, is the sender's |
| `Outcomes.TokensIssued` | pallets/tokens/src/lib.rs:133-160 | over all runs exactly the tokens that were issued are known, each with its amount and as the property of the account that issued it |
| `Outcomes.IssueOutcome` | pallets/tokens/src/lib.rs:133-160 | issuing goes through, and the issuer holds all of it, free |
| `Outcomes.FreeBalanceExact` | pallets/tokens/src/lib.rs:221-228 | the check of the free balance passes if and only if token and account are known and the funds suffice, and fails with the error of the one that is missing |
| `Outcomes.TransferOutcome` | pallets/tokens/src/lib.rs:123-127 | a transfer call goes through if and only if its parties differ, the sender has the free funds and the receiver's balance stays a `u128`; each other case has its error |
| `Outcomes.PairsListed` | pallets/trade/src/lib.rs:631-684 | over all runs exactly those pairs are known that a call has listed |
| `Outcomes.TradePairOutcome` | pallets/trade/src/lib.rs:631-684 | after any run a pair is accepted if and only if its tokens differ, both were issued, one of them by the sender, and neither direction is listed; each other case has its error; then exactly this pair is listed besides |
| `Outcomes.ConversionOutcome` | pallets/trade/src/lib.rs:1008-1034 | an amount that converts with a remainder, and one whose conversion is out of bounds, have their errors |
| `Outcomes.LimitOrderRefused` | pallets/trade/src/lib.rs:686-717 | a limit order that is not acceptable fails with the error of the first condition that it does not meet |
| `Outcomes.LimitOrderStored` | pallets/trade/src/lib.rs:711-717 | one that is carried out is stored under its name on the terms of the call, wanting exactly what its offer is worth, and no other order appears or disappears |
| `Outcomes.CancelOutcome` | pallets/trade/src/lib.rs:800-812 | a cancellation goes through if and only if it is the owner's, of an unfinished order; each other case has its error |
| `Outcomes.CancelLeaves` | pallets/trade/src/lib.rs:811-830 | it cancels this order, unfreezes what it still offers, and moves no money between accounts |
| `Guarantees.NeverReducedBelowZero` | pallets/trade/src/linked_price_list.rs:228-233 | after any run, no trade of any new order takes more off a level than is stored there, if the levels of the other side store as much as their orders offer and want |
| `Guarantees.StoredCoversExact` | pallets/trade/src/linked_price_list.rs:143-149 | over all runs, a level stores as much as its orders offer and want if and only if this, with what the trade log and the cancellations say is on record, modulo 2^128, is a `u128` |
| `Guarantees.UnwrappedNeverReduced` | pallets/trade/src/linked_price_list.rs:228-233 | no trade takes more than is stored after any run in which no traded order was canceled and all that was queued could be added to what was stored |
| `Guarantees.SupplyNeverReduced` | pallets/trade/src/linked_price_list.rs:228-233 | nor after any run without self-trades and cancellations of traded orders, if the supply of the offered token and the logged dust are a `u128` together, and what asks want is bounded by the quote supply at their prices |
| `Guarantees.CleanRecord` | pallets/trade/src/linked_price_list.rs:228-233 | after runs without dust and cancellations of traded orders there is nothing on record, so that the supply suffices |
| `Aggregates.RunRight` | pallets/trade/src/linked_price_list.rs:228-233 | over all runs in which no traded order is canceled, every level's amounts, before they are cut to a `u128`, are what its orders want and no less than they offer |
| `Aggregates.CancelRightExact` | pallets/trade/src/lib.rs:809 | a cancellation keeps that so if and only if the canceled order was never traded |
| `Aggregates.OffersWithin` | pallets/trade/src/lib.rs:715-717 | any set of orders that sell one token offers no more than the accounts hold of it |
| `Aggregates.StoredExact` | pallets/trade/src/linked_price_list.rs:143-149 | what a level stores as wanted and offered is what its orders want and offer, up to what canceled and filled orders have left on its record, modulo 2^128 |
| `Aggregates.BidAmountsExact` | pallets/trade/src/linked_price_list.rs:143-149 | where no traded order was canceled, a bid level of a pair whose base supply times the price factor is a `u128` stores as wanted exactly what its orders want |
| `Aggregates.AskAmountsExact` | pallets/trade/src/linked_price_list.rs:143-149 | an ask level wants no more than the quote supply at its price, and stores what its orders want exactly if that is a `u128` |
| `Aggregates.PushedExact` | pallets/trade/src/linked_price_list.rs:143-149 | queueing an order adds to a stored amount exactly if the sum is a `u128` |
| `Reductions.TradeStep` | pallets/trade/src/lib.rs:951-954 | a trade takes its two amounts off the level at its price, adds what the resting order did not need to the level's record, and leaves the other prices alone; it takes no more than the level's orders offer and want |
| `Reductions.MatchLeaves` | pallets/trade/src/lib.rs:860-987 | whatever is on record, after a match each level that survives has what was traded at its price taken off, and offers more than its orders by what it did before and what filled orders did not need there |
| `Reductions.MatchWithin` | pallets/trade/src/lib.rs:860-987 | at each price a match takes no more than the orders there offer and want |
| `Reductions.NeverUnderflowsExact` | pallets/trade/src/linked_price_list.rs:228-233 | no trade of a match takes more off its level than is stored there, if and only if each level stores, when the match begins, all that the match takes at its price |
| `Reductions.CoversExact` | pallets/trade/src/linked_price_list.rs:228-233 | what is stored is no less than what the orders of a level offer if and only if this and the excess on record modulo 2^128 are a `u128` together; and so for what they want |
| `Reductions.CoveredNeverUnderflows` | pallets/trade/src/linked_price_list.rs:228-233 | no incoming order takes more than is stored where every level stores as much as its orders offer and want |
| `Records.MatchedAt` | pallets/trade/src/lib.rs:711-744 | a limit order changes the other side as its match does, queues its rest at its own price, and changes nothing else that is stored |
| `Records.NextRecorded` | pallets/trade/src/lib.rs:506-542 | a covered call adds to a level's record what filled orders did not need, and takes off what a canceled order had given |
| `Records.LevelRecorded` | pallets/trade/src/lib.rs:506-542 | over all runs, what is on a level's record is what the trade log and the cancellations say since the level was opened |
| `Records.NextUnwrapped` | pallets/trade/src/linked_price_list.rs:143-149 | where nothing stored has wrapped, a call that cancels no traded order keeps that so if and only if what it queues can be added to what is stored |
| `Records.RunUnwrapped` | pallets/trade/src/linked_price_list.rs:143-149 | over all runs that cancel no traded order, nothing stored ever wraps if and only if everything that was queued could be added |
| `Dust.TradeDustExact` | pallets/trade/src/lib.rs:951-954 | a level that survives a trade still stores what its orders want and offer if and only if the trade did not fill the resting order for less than it still offered |
| `Dust.MatchDustExact` | pallets/trade/src/lib.rs:860-987 | a match leaves the other side exact if and only if it filled no order with something left at a price that survives |
| `Dust.MatchedDustExact` | pallets/trade/src/lib.rs:711-744 | so it is for a whole limit order and all books |
| `Dust.CancelExact` | pallets/trade/src/lib.rs:809 | a cancellation leaves all amounts exact if and only if the canceled order was never traded |
| `Dust.NextExact` | pallets/trade/src/lib.rs:506-542 | a covered call leaves all amounts exact if and only if it leaves no dust and cancels no traded order |
| `Dust.RunExact` | pallets/trade/src/lib.rs:506-542 | over all runs of such calls, every level wants and offers exactly what its orders do |
| `Dust.OffersStored` | pallets/trade/src/linked_price_list.rs:143-149 | where nobody has traded with himself, the stored sell amount is then what the level's orders offer |
| `SampleRuns.SomeRunTrades` | pallets/trade/src/lib.rs:686-756 | a run of covered calls exists in which two accounts trade |
| `SampleRuns.TradeWithSelf` | pallets/tokens/src/lib.rs:163-184 | a run of covered calls exists in which an account trades with itself and then holds twice the supply of both tokens |
| `SampleRuns.TradeWithSelfOverflows` | pallets/tokens/src/lib.rs:250-257 | a run of covered calls exists after which an acceptable order fails only because its owner's balance plus what he sells himself leaves `u128` |
| `SampleRuns.AskAmountsWrap` | pallets/trade/src/linked_price_list.rs:143-149 | a run of covered calls exists after which two asks of one level want more than a `u128` holds and the stored amount is not what they want |
| `SampleRuns.DustStays` | pallets/trade/src/lib.rs:930-954 | a run of covered calls exists after which a level stores 3 as offered while its only order offers 2 |
| `FailingRuns.StoredFallsShort` | pallets/trade/src/linked_price_list.rs:228-233 | for each of a range of amounts, a run of covered calls of two accounts, without a cancellation, after which a level stores less than its only ask offers, and a covered bid takes off more than is stored |
| `FailingRuns.SomeDeal` | pallets/trade/src/linked_price_list.rs:228-233 | such amounts exist for every price factor but the smallest and the largest ones |
| `FailingRuns.LargestPriceSticks` | pallets/trade/src/lib.rs:998 | a pair's first order at the largest price passes every check; a bid then meets the top sentinel again and again, and an ask breaks the list |
| `FailingRuns.LoneCancelBreaks` | pallets/trade/src/linked_price_list.rs:253-271 | a run after which an owner can cancel an order that waits alone, which leaves no list of any book |
| `Exchange.LoopGuardExact` | pallets/trade/src/lib.rs:839-876 | the loop goes on exactly while the order crosses, and for a buy at the largest price also on an empty ask side |
| `Exchange.AppendAtTopBreaks` | pallets/trade/src/linked_price_list.rs:139-150 | pushing an order into the top sentinel leaves a map that is no list of any book |
| `Exchange.AppendWellFormed` | pallets/trade/src/linked_price_list.rs:139-216 | `append` leaves the list of a book exactly if the price is not the top sentinel's |
| `Exchange.NeverEnds` | pallets/trade/src/lib.rs:839-876 | where matching stops an unfilled order at the largest price, a buy goes round the loop forever and a sell breaks the list |
| `Exchange.Exchange.SettleOrders` | pallets/trade/src/lib.rs:872-942 | the steps of one trade in wrapping words give, unless something leaves `u128`, the settled orders, fill and ledger, or the error of the first step that fails |
| `Exchange.Exchange.ExecuteTrade` | pallets/trade/src/lib.rs:868-960 | one round of the inner loop, with all its storage updates, is one step of the reference matcher |
| `Exchange.Exchange.MatchLevel` | pallets/trade/src/lib.rs:866-984 | the inner loop over the snapshot of a queue, which stays in step with the stored queue, is a part of the reference matcher's run |
| `Exchange.Exchange.OrderMatch` | pallets/trade/src/lib.rs:832-993 | for an order whose trades stay inside `u128`, the matching loop terminates in the world of the reference matcher and reports whether the order was filled |
| `Exchange.Exchange.CreateTradePair` | pallets/trade/src/lib.rs:631-684 | ends as the state machine says, in the new state or with its error and no change, which `TradePairOutcome` determines |
| `Exchange.Exchange.CreateLimitOrder` | pallets/trade/src/lib.rs:686-756 | a covered limit order ends as the state machine says, whoever's orders it meets: in the new state, or with its error and no change |
| `Exchange.Exchange.CancelLimitOrder` | pallets/trade/src/lib.rs:800-830 | what every cancellation does to the order, the funds and the stored list, in which the other orders keep their places; it ends as the state machine says, with a well-formed list, if and only if the level keeps another order |
| `Exchange.Exchange.Dispatch` | pallets/trade/src/lib.rs:506-542 | every covered call takes the storage to the state machine's next state, or fails with its error and changes nothing, and keeps everything in order |
| `Exchange.Exchange.OnFinalize` | pallets/trade/src/lib.rs:580-627 | after a block every pair's volume is, modulo 2^128, that of the exchange's trades in the last day, exactly if and only if it is a `u128`, and its high and low those of its trades in the covered blocks; its latest price is that of its last trade |
| `MarketData.RangeSplit` | pallets/trade/src/lib.rs:548-627 | volume and price range of adjoining runs of blocks combine into those of the whole |
| `MarketData.HighIsLargest` | pallets/trade/src/lib.rs:592-599 | the high of some blocks is the largest price of the pair's trades in them, and none if and only if there is no such trade |
| `MarketData.LowIsSmallest` | pallets/trade/src/lib.rs:601-608 | the low is the smallest one |
| `MarketData.LastPriceIs` | pallets/trade/src/lib.rs:1143-1144 | the latest price is that of the pair's last trade, and none if and only if it has not traded |
| `MarketData.DayIs` | pallets/trade/src/lib.rs:548-557 | the window is a day long, or as long as the chain |
| `MarketData.ExtremesOfRun` | pallets/trade/src/lib.rs:592-608 | the extremes of the per-block highs and lows are those of the whole run of blocks |
| `MarketData.CoverageExact` | pallets/trade/src/lib.rs:565-573 | the blocks that the price vectors cover are the pair's last day, or its whole life, exactly under the stated condition |
| `MarketData.OpenPair` | pallets/trade/src/lib.rs:548-577 | what remains when the oldest block falls out is the window's volume modulo 2^128; what falls out is no more than what is stored if and only if it can be added to what is stored of the rest |
| `MarketData.ClosePair` | pallets/trade/src/lib.rs:580-627 | adding the block gives the volume of the last day modulo 2^128 and the range of the covered blocks |
| `MarketData.Market.SetTpMarketData` | pallets/trade/src/lib.rs:1139-1175 | adds one trade to the block's bucket, its amount in wrapping `u128` words, and sets the latest price, or fails for an unknown pair |
| `MarketData.OneMoreBucket` | pallets/trade/src/lib.rs:1139-1175 | so the bucket holds the volume of the block modulo 2^128, and its highest and lowest price |
| `MarketData.Market.HighestOf` | pallets/trade/src/lib.rs:592-599 | the loop finds the largest element present, and returns the smallest price exactly if none is |
| `MarketData.Market.LowestOf` | pallets/trade/src/lib.rs:601-608 | the loop finds the smallest element present, and returns the largest price exactly if none is |
| `MarketData.Market.OnInitialize` | pallets/trade/src/lib.rs:548-577 | takes the oldest block out of every pair's aggregates once a day has passed, and leaves the latest prices alone |
| `MarketData.Market.OnFinalize` | pallets/trade/src/lib.rs:580-627 | after a block every pair's volume is the sum over the last day, modulo 2^128, exactly if and only if it is a `u128`, and its high and low are those of the covered blocks; the latest prices stay |

## Left out

- Market orders (`do_create_market_order`, pallets/trade/src/lib.rs:758-798): they zero an order's remainders without unfreezing its funds or taking it out of the book, so none of the properties here is meant to hold of them.
- CancelCall: for the only order of a level, whose cancellation leaves no list of any book, the state machine's result is not what the storage spells out; `Exchange.CancelLimitOrder` says what it holds.
- RunKeeps: runs end before the cancellation of the only order of a level, and before a call in which a sum or product leaves `u128`; of the states after the latter only `WrappingToItself` says something.
- TransferTotals: exact sums only; what a wrapped one leaves is stated for transfers to oneself (`WrappingToItself`), which are the only ones that can wrap before one of them has created money.
- The undoing of a failed call by the framework.
- The index maps of trades and orders, and the capped lists of opened and closed orders: append-only bookkeeping.
- Events, weights, origins, hashing, randomness, encoding and the storage backend.
- Token symbols, nonces and the index of a token's owner (pallets/tokens/src/lib.rs:134-158).
- The node, the runtime beyond its constants, benchmarks and RPC.

/** What the exchange promises, for every run of covered calls and for every state it leads to. */
module Guarantees {
  import opened Base
  import opened Sums
  import opened Orders
  import opened FillMath
  import opened Ledger
  import opened Books
  import opened Settlement
  import opened World
  import opened Matching
  import opened Engine
  import opened Operations
  import opened Transitions
  import opened LifeCycle
  import opened Conservation
  import opened Reductions
  import opened Aggregates
  import opened Records
  import opened Dust

  // ---------- Funds ----------

  /** All accounts together hold exactly the supply of each token if and only if nobody ever traded with
      himself; and always, each account's balance is what it has free plus what it has frozen. */
  lemma SupplyConserved(calls: seq<Call>, h: Holding)
    requires AllCovered(GENESIS, calls)
    ensures var w := Run(GENESIS, calls);
            && PartiesKnown(w.orders, w.trades)
            && (TradedWithOthers(w) <==>
                  forall t <- w.ledger.supply.Keys :: Total(w.ledger.balance, t) == w.ledger.supply[t])
            && Get(w.ledger.balance, h) == Get(w.ledger.free, h) + Get(w.ledger.frozen, h)
  {
    hide Coherent, AllCovered, Run, Total, TradedWithOthers, PartiesKnown;
    RunKeeps(calls);
    CoherentParts(Run(GENESIS, calls));
    RunSoundExact(calls);
  }

  /** What an account has frozen of a token is, to the unit, what its unfinished orders still offer. */
  lemma FundsBacked(calls: seq<Call>, h: Holding)
    requires AllCovered(GENESIS, calls)
    ensures var w := Run(GENESIS, calls); Get(w.ledger.frozen, h) == Stake(w.orders, h)
  {
    hide Coherent, AllCovered, Run, Stake;
    RunKeeps(calls);
    CoherentParts(Run(GENESIS, calls));
  }

  /** What an account has free of a token is what was issued and transferred to it and what its trades
      brought it, less what its unfinished orders still offer: all else that was frozen has come back. */
  lemma FreeExplained(calls: seq<Call>, h: Holding)
    requires AllCovered(GENESIS, calls)
    ensures var w := Run(GENESIS, calls);
            && PartiesKnown(w.orders, w.trades)
            && Get(w.ledger.free, h) == AllBrought(calls, h) + FlowOf(w.orders, w.trades, h) - Stake(w.orders, h)
  {
    hide Coherent, AllCovered, Run, Stake, Total, FlowOf, AllBrought, PartiesKnown, TradedWithOthers;
    BalancesExplained(calls, h);
    FundsBacked(calls, h);
    SupplyConserved(calls, h);
  }

  // ---------- Books ----------

  /** Bids stand from the highest price down, asks from the lowest up, every bid below every ask; and a level
      queues unfinished orders of one side at its price. */
  lemma BookUncrossed(calls: seq<Call>, p: PairId)
    requires AllCovered(GENESIS, calls) && p in Run(GENESIS, calls).books
    ensures var w := Run(GENESIS, calls);
            var b := w.books[p];
            && (forall i, j :: 0 <= i < j < |b.bids| ==> b.bids[i].price > b.bids[j].price)
            && (forall i, j :: 0 <= i < j < |b.asks| ==> b.asks[i].price < b.asks[j].price)
            && (forall i, j :: 0 <= i < |b.bids| && 0 <= j < |b.asks| ==> b.bids[i].price < b.asks[j].price)
            && p in w.pairs
            && (forall side: OrderType, i: nat | i < |b.Side(side)| ::
                  LevelOk(w.orders, w.pairs[p], side, b.Side(side)[i]))
  {
    hide Coherent, AllCovered, Run, LevelOk;
    RunKeeps(calls);
    var w := Run(GENESIS, calls);
    CoherentParts(w);
    BookSorted(w.orders, w.pairs[p], w.books[p]);
    PricesIncrease(w.books[p]);
    forall side: OrderType, i: nat | i < |w.books[p].Side(side)|
      ensures LevelOk(w.orders, w.pairs[p], side, w.books[p].Side(side)[i])
    {
      LevelNow(w, p, side, i);
    }
  }

  lemma PricesIncrease(b: Book)
    requires Sorted(b)
    ensures forall i, j :: 0 <= i < j < |b.bids| ==> b.bids[i].price > b.bids[j].price
    ensures forall i, j :: 0 <= i < j < |b.asks| ==> b.asks[i].price < b.asks[j].price
    ensures forall i, j :: 0 <= i < |b.bids| && 0 <= j < |b.asks| ==> b.bids[i].price < b.asks[j].price
  {
    forall i, j | 0 <= i < |b.bids| && 0 <= j < |b.asks| ensures b.bids[i].price < b.asks[j].price {
      assert i == 0 || Better(Buy, b.bids[0].price, b.bids[i].price);
      assert j == 0 || Better(Sell, b.asks[0].price, b.asks[j].price);
    }
  }

  /** Every unfinished order waits in the book, in the queue of its own price. */
  lemma UnfinishedQueued(calls: seq<Call>, id: OrderId)
    requires AllCovered(GENESIS, calls) && id in Run(GENESIS, calls).orders
    ensures var w := Run(GENESIS, calls); w.orders[id].IsFinished() || Queued(w, w.orders[id])
  {
    hide Coherent, AllCovered, Run, Queued;
    RunKeeps(calls);
    CoherentParts(Run(GENESIS, calls));
  }

  // ---------- Orders ----------

  /** What a cancellation has given back of an order's offer. */
  function CanceledRest(o: Order): nat {
    if o.status.Canceled? then o.remainedSell else 0
  }

  /** The trades of an order account for all of it: they respect its limit price in total; what it offered
      is what it paid, what trades and its cancellation gave back, and what it has frozen; it got exactly what
      it no longer wants, a filled one all of it; trades give something back only by filling it; and an
      unfinished order still offers and wants something. */
  lemma OrdersAccounted(calls: seq<Call>, id: OrderId)
    requires AllCovered(GENESIS, calls) && id in Run(GENESIS, calls).orders
    ensures var w := Run(GENESIS, calls);
            var o, back := w.orders[id], Returned(w.trades, id);
            var paid, received := Paid(w.trades, id), Received(w.trades, id);
            && WithinLimit(o.otype, o.price, paid, received)
            && o.sellAmount == paid + back + CanceledRest(o) + StakeOf(o, (o.owner, o.SellToken()))
            && received + o.remainedBuy == o.buyAmount
            && (o.status.Filled? ==> received == o.buyAmount)
            && (0 < back ==> o.status.Filled?)
            && (!o.IsFinished() ==> 0 < o.remainedSell && 0 < o.remainedBuy)
  {
    hide Coherent, AllCovered, Run, Paid, Received, Returned, ExactAmounts, Slack, WithinLimit;
    RunKeeps(calls);
    var w := Run(GENESIS, calls);
    CoherentParts(w);
    StoredNow(w, id);
    assert LogOk(w, id);
  }

  // ---------- Acceptance ----------

  /** What a limit order must bring along: a positive price and amount that convert without a remainder, a
      pair, and the funds. */
  ghost predicate Acceptable(w: World, sender: AccountId, base: TokenId, quote: TokenId, otype: OrderType,
                             price: Price, sellAmount: nat)
  {
    && 0 < price <= U128_MAX && 0 < sellAmount <= U128_MAX
    && (exists buy :: 1 <= buy <= U128_MAX && ExactAmounts(otype, price, sellAmount, buy))
    && (base, quote) in w.pairOf
    && var token := if otype.Buy? then base else quote;
       Known(w.ledger, sender, token).Pass? && sellAmount <= Get(w.ledger.free, (sender, token))
  }

  lemma AdmittedExact(w: World, sender: AccountId, base: TokenId, quote: TokenId, otype: OrderType,
                      price: Price, sellAmount: nat)
    requires Orderly(w.ledger)
    ensures Admitted(w, sender, base, quote, otype, price, sellAmount)
            <==> Acceptable(w, sender, base, quote, otype, price, sellAmount)
    ensures Freeze(w.ledger, sender, if otype.Buy? then base else quote, sellAmount) != Err(ArithmeticOverflow)
  {
    hide Orderly, Freeze, EnsureCounterpartyAmountBounds;
    FreezeExact(w.ledger, sender, if otype.Buy? then base else quote, sellAmount);
    if 0 < price {
      AdmissionExact(otype, price, sellAmount);
    }
  }

  lemma RefusedEarly(w: World, sender: AccountId, base: TokenId, quote: TokenId, otype: OrderType,
                     price: Price, sellAmount: nat, id: OrderId)
    requires !Admitted(w, sender, base, quote, otype, price, sellAmount)
    requires Freeze(w.ledger, sender, if otype.Buy? then base else quote, sellAmount) != Err(ArithmeticOverflow)
    ensures var r := LimitOrderCall(w, sender, base, quote, otype, price, sellAmount, id);
            r.Err? && r.error != ArithmeticOverflow
  {
    hide Freeze, Matched, FloorDiv;
  }

  /** A limit order is accepted if and only if it is acceptable and no product and no credited balance of the
      trades that are due leaves `u128`; where one does, that is the outcome. In a sound ledger none does if
      the pair is capped and the order meets only orders of others. */
  lemma AcceptanceExact(w: World, sender: AccountId, base: TokenId, quote: TokenId, otype: OrderType,
                        price: Price, sellAmount: nat, id: OrderId)
    requires Coherent(w, {}) && Formed(w, CreateLimitOrder(sender, base, quote, otype, price, sellAmount, id))
    ensures Acceptable(w, sender, base, quote, otype, price, sellAmount) ==>
              && 0 < price && EnsureCounterpartyAmountBounds(otype, price, sellAmount).Ok?
              && (base, quote) in w.pairOf
              && var o := OrderOf(sender, base, quote, otype, price, sellAmount, id);
                 var p := w.pairOf[(base, quote)];
                 && Freeze(w.ledger, o.owner, o.SellToken(), o.sellAmount).Ok?
                 && p in Place(w, p, o).books && id in Place(w, p, o).orders
                 && var placed := Place(w, p, o);
                    var r := LimitOrderCall(w, sender, base, quote, otype, price, sellAmount, id);
                    && (r.Ok? <==> MatchFits(placed, p, id))
                    && (r.Err? ==> r.error == ArithmeticOverflow)
                    && (Sound(w.ledger) && Capped(w, p) && MeetsOthers(placed, p, id) ==> r.Ok?)
    ensures !Acceptable(w, sender, base, quote, otype, price, sellAmount) ==>
              var r := LimitOrderCall(w, sender, base, quote, otype, price, sellAmount, id);
              r.Err? && r.error != ArithmeticOverflow
  {
    hide Coherent, PairsOk, Sound, Orderly, Admitted, Acceptable, OrderOf, Match, Matched, Enqueue, MatchFits,
      MeetsOthers, LimitOrderCall, EnsureCounterpartyAmountBounds, OrderOk, Freeze, Place;
    CoherentParts(w);
    AdmittedExact(w, sender, base, quote, otype, price, sellAmount);
    LimitOrderPlaced(w, sender, base, quote, otype, price, sellAmount, id);
    if Acceptable(w, sender, base, quote, otype, price, sellAmount) {
      var o, p := OrderOf(sender, base, quote, otype, price, sellAmount, id), w.pairOf[(base, quote)];
      MatchedExact(w, p, o);
      if Sound(w.ledger) && Capped(w, p) && MeetsOthers(Place(w, p, o), p, id) {
        MatchedSucceeds(w, p, o);
      }
    } else {
      RefusedEarly(w, sender, base, quote, otype, price, sellAmount, id);
    }
  }

  // ---------- Trading with oneself ----------

  /** Whether a limit order that is carried out keeps conservation is decided by the orders that it trades
      with, the first ones in price-time priority: none of them may be the sender's. */
  lemma LimitOrderSoundExact(w: World, p: PairId, o: Order)
    requires Inv(w) && Placeable(w, p, o) && Matched(w, p, o).Ok?
    ensures p in Place(w, p, o).books && o.id in Place(w, p, o).orders
    ensures var placed, w' := Place(w, p, o), Matched(w, p, o).value;
            var queue, hits := Priority(Opposite(placed, p, o.id)), |w'.trades| - |w.trades|;
            && 0 <= hits <= |queue|
            && (forall i :: 0 <= i < hits ==> w'.trades[|w.trades| + i].maker == queue[i] && queue[i] in placed.orders)
            && (Sound(w'.ledger) <==> forall i :: 0 <= i < hits ==> placed.orders[queue[i]].owner != o.owner)
            && (Sound(w'.ledger) <==> MeetsOthers(placed, p, o.id))
  {
    hide Coherent, OrderOk, Freeze, Poised, Crossing, Match, Enqueue, Sound, Priority, Opposite, MeetsOthers;
    PlaceKeeps(w, p, o);
    PlaceSound(w, p, o);
    var placed := Place(w, p, o);
    MatchSoundExact(placed, p, o.id);
    MeetsOthersExact(placed, p, o.id);
    PriceTimePriority(placed, p, o.id);
    LogGrows(placed, p, o.id);
    MatchStops(placed, p, o.id);
    var m := Match(placed, p, o.id);
    EnqueueOrders(m, p, o.id);
    PoisedParties(m, p, o.id);
    var queue, hits := Priority(Opposite(placed, p, o.id)), |m.trades| - |w.trades|;
    forall i | 0 <= i < hits
      ensures m.trades[|w.trades| + i].maker == queue[i] && queue[i] in placed.orders
    {
      assert m.trades[|w.trades|..][i] == m.trades[|w.trades| + i];
      assert m.trades[|w.trades| + i] in m.trades;
    }
    HitsAre(placed, m, o.id, queue, hits);
  }

  lemma HitsAre(w: World, w': World, id: OrderId, queue: seq<OrderId>, hits: nat)
    requires id in w.orders && |w'.trades| == |w.trades| + hits && hits <= |queue|
    requires forall i :: 0 <= i < hits ==> w'.trades[|w.trades| + i].maker == queue[i] && queue[i] in w.orders
    ensures AmongOthers(w, w', id) <==>
            forall i :: 0 <= i < hits ==> w.orders[queue[i]].owner != w.orders[id].owner
  {
    var n := |w.trades|;
    forall j | n <= j < n + hits ensures w'.trades[j].maker == queue[j - n] && queue[j - n] in w.orders {
      assert w'.trades[n + (j - n)].maker == queue[j - n];
    }
    if AmongOthers(w, w', id) {
      forall i | 0 <= i < hits ensures w.orders[queue[i]].owner != w.orders[id].owner {
        assert w'.trades[n + i].maker == queue[i];
      }
    }
  }

  // ---------- Stored amounts ----------

  /** The level's orders offer, and want, with what is on its record and has not wrapped, no more than a `u128`. */
  ghost predicate RoomFor(w: World, l: Level, r: Record)
    requires forall id <- l.orders :: id in w.orders
  {
    && SumSell(w.orders, l.orders) + r.extraSell % TWO_TO_128 <= U128_MAX
    && SumBuy(w.orders, l.orders) + (-r.shortBuy) % TWO_TO_128 <= U128_MAX
  }

  /** In every reachable state, a level stores as much as its orders offer and want if and only if there is room
      for what is on record by the trade log and the cancellations. */
  lemma StoredCoversExact(calls: seq<Call>, p: PairId, side: OrderType, i: nat)
    requires AllCovered(GENESIS, calls) && i < |SideOf(Run(GENESIS, calls), p, side)|
    ensures var w := Run(GENESIS, calls);
            var l := SideOf(w, p, side)[i];
            && (forall id <- l.orders :: id in w.orders)
            && (RoomFor(w, l, Recorded(calls, p, side, l.price)) <==> Covers(l))
            && (Covers(l) <==> SumSell(w.orders, l.orders) <= NodeOf(l).sellAmount &&
                               SumBuy(w.orders, l.orders) <= NodeOf(l).buyAmount)
  {
    hide Coherent, AllCovered, Run, Recorded, LevelOk, SumSell, SumBuy, NodeOf, Covers;
    RunKeeps(calls);
    var w := Run(GENESIS, calls);
    CoherentParts(w);
    LevelNow(w, p, side, i);
    LevelRecorded(calls, p, side, i);
    CoversExact(w.orders, w.pairs[p], side, SideOf(w, p, side)[i]);
  }

  /** After any run, no trade of an incoming order takes more off a level than is stored there, if the levels of
      the other side store as much as their orders offer and want. */
  lemma NeverReducedBelowZero(calls: seq<Call>, p: PairId, o: Order)
    requires AllCovered(GENESIS, calls) && Placeable(Run(GENESIS, calls), p, o)
    requires var w, side := Run(GENESIS, calls), o.otype.Not();
             forall i :: 0 <= i < |SideOf(w, p, side)| ==> Covers(SideOf(w, p, side)[i])
    ensures var placed := Place(Run(GENESIS, calls), p, o);
            p in placed.books && o.id in placed.orders && NeverUnderflows(placed, p, o.id)
  {
    hide Coherent, AllCovered, Run, OrderOk, Freeze, Place, Poised, NeverUnderflows, Covers;
    var w := Run(GENESIS, calls);
    RunKeeps(calls);
    PlaceKeeps(w, p, o);
    PlacedPrice(w, p, o);
    PlacedSides(w, p, o);
    assert Opposite(Place(w, p, o), p, o.id) == SideOf(w, p, o.otype.Not());
    CoveredNeverUnderflows(Place(w, p, o), p, o.id);
  }

  /** That is so as long as no traded order has been canceled and everything that was queued could be added to
      what was stored. */
  lemma UnwrappedNeverReduced(calls: seq<Call>, p: PairId, o: Order)
    requires AllCovered(GENESIS, calls) && AllUntraded(calls) && AllPushesFit(calls)
    requires Placeable(Run(GENESIS, calls), p, o)
    ensures var placed := Place(Run(GENESIS, calls), p, o);
            p in placed.books && o.id in placed.orders && NeverUnderflows(placed, p, o.id)
  {
    hide Coherent, AllCovered, AllUntraded, AllPushesFit, Run, OrderOk, Freeze, Place, AllRight, Covers, Unwrapped,
      SideSorted, At, NeverUnderflows;
    var w, side := Run(GENESIS, calls), o.otype.Not();
    RunKeeps(calls);
    RunRight(calls);
    RunUnwrapped(calls);
    forall i | 0 <= i < |SideOf(w, p, side)| ensures Covers(SideOf(w, p, side)[i]) {
      SortedNow(w, p, side);
      AtLevel(side, SideOf(w, p, side), i);
      RightSide(w, p, side);
      UnwrappedCovers(SideOf(w, p, side)[i]);
    }
    NeverReducedBelowZero(calls, p, o);
  }

  lemma UnwrappedCovers(l: Level)
    requires Unwrapped(l) && AmountsRight(l)
    ensures Covers(l)
  {
  }

  /** And it is so if nobody has traded with himself, no traded order has been canceled, and the supply of the
      offered token leaves room for the dust that the trade log shows: always for bids of a capped pair, and
      for asks if the quote supply at their prices is a `u128`. */
  lemma SupplyNeverReduced(calls: seq<Call>, p: PairId, o: Order)
    requires AllCovered(GENESIS, calls) && AllUntraded(calls)
    requires var w := Run(GENESIS, calls); PartiesKnown(w.orders, w.trades) && TradedWithOthers(w)
    requires Placeable(Run(GENESIS, calls), p, o)
    requires var w, side := Run(GENESIS, calls), o.otype.Not();
             && OfferedToken(w.pairs[p], side) in w.ledger.supply
             && var supply := w.ledger.supply[OfferedToken(w.pairs[p], side)];
                && (forall l <- SideOf(w, p, side) ::
                      supply + Recorded(calls, p, side, l.price).extraSell <= U128_MAX)
                && if side.Buy? then Capped(w, p)
                   else forall l <- SideOf(w, p, side) :: supply * l.price <= U128_MAX * PRICE_FACTOR
    ensures var placed := Place(Run(GENESIS, calls), p, o);
            p in placed.books && o.id in placed.orders && NeverUnderflows(placed, p, o.id)
  {
    hide Coherent, AllCovered, AllUntraded, Run, TradedWithOthers, PartiesKnown, OrderOk, Freeze, Place, Sound,
      AllRight, Covers, Recorded, Standing, NeverUnderflows, Capped, PairsOk, RoomFor, SideRight;
    var w, side := Run(GENESIS, calls), o.otype.Not();
    RunKeeps(calls);
    RunSoundExact(calls);
    RunRight(calls);
    InvStanding(w);
    forall i | 0 <= i < |SideOf(w, p, side)| ensures Covers(SideOf(w, p, side)[i]) {
      StoredCoversExact(calls, p, side, i);
      LevelRecorded(calls, p, side, i);
      RightSide(w, p, side);
      SupplyRoom(w, p, side, i, Recorded(calls, p, side, SideOf(w, p, side)[i].price));
    }
    NeverReducedBelowZero(calls, p, o);
  }

  lemma SupplyRoom(w: World, p: PairId, side: OrderType, i: nat, r: Record)
    requires Standing(w) && i < |SideOf(w, p, side)| && SideRight(SideOf(w, p, side))
    requires RecordOf(SideOf(w, p, side)[i]) == r
    requires p in w.pairs && OfferedToken(w.pairs[p], side) in w.ledger.supply
    requires w.ledger.supply[OfferedToken(w.pairs[p], side)] + r.extraSell <= U128_MAX
    requires if side.Buy? then Capped(w, p)
             else w.ledger.supply[w.pairs[p].quote] * SideOf(w, p, side)[i].price <= U128_MAX * PRICE_FACTOR
    ensures forall id <- SideOf(w, p, side)[i].orders :: id in w.orders
    ensures RoomFor(w, SideOf(w, p, side)[i], r)
  {
    hide Standing, Capped, SumSell, SumBuy, NodeOf, Resting, OrderOk, RoomFor, SideRight, AmountsRight;
    var l := SideOf(w, p, side)[i];
    RightLevel(SideOf(w, p, side), i);
    OffersFit(w, p, side, i);
    if side.Buy? {
      BidAmountsExact(w, p, i);
    } else {
      AskAmountsExact(w, p, i);
    }
    SmallRecord(w, l, r, w.ledger.supply[OfferedToken(w.pairs[p], side)]);
  }

  lemma RightLevel(levels: seq<Level>, i: nat)
    requires SideRight(levels) && i < |levels|
    ensures AmountsRight(levels[i]) && levels[i].shortBuy == 0 && 0 <= levels[i].extraSell
  {
  }

  lemma SmallRecord(w: World, l: Level, r: Record, supply: nat)
    requires forall id <- l.orders :: id in w.orders
    requires SumSell(w.orders, l.orders) <= supply && SumBuy(w.orders, l.orders) <= U128_MAX
    requires r.shortBuy == 0 && 0 <= r.extraSell && supply + r.extraSell <= U128_MAX
    ensures RoomFor(w, l, r)
  {
    hide SumSell, SumBuy;
  }

  lemma {:induction false} CleanUntraded(calls: seq<Call>)
    requires AllClean(calls)
    ensures AllUntraded(calls)
  {
    hide Clean, Untraded, Run;
    if calls != [] {
      CleanUntraded(calls[..|calls| - 1]);
      CleanStep(Run(GENESIS, calls[..|calls| - 1]), calls[|calls| - 1]);
    }
  }

  lemma CleanStep(w: World, c: Call)
    requires Clean(w, c)
    ensures Untraded(w, c)
  {
    hide CancelCall, LimitOrderCall, LeavesDust;
    if c.CancelLimitOrder? && CancelCall(w, c.sender, c.order).Ok? {
      CancelUnfinished(w, c.sender, c.order);
    }
  }

  /** After a run of clean calls there is no dust at all, and nothing else on record. */
  lemma CleanRecord(calls: seq<Call>, p: PairId, side: OrderType, i: nat)
    requires AllCovered(GENESIS, calls) && AllClean(calls) && i < |SideOf(Run(GENESIS, calls), p, side)|
    ensures AllUntraded(calls)
    ensures Recorded(calls, p, side, SideOf(Run(GENESIS, calls), p, side)[i].price) == Record(0, 0)
  {
    CleanUntraded(calls);
    hide AllCovered, AllClean, AllUntraded, Run, Recorded, AllExact;
    RunExact(calls);
    LevelRecorded(calls, p, side, i);
    SidesExact(Run(GENESIS, calls), p, side);
  }
}

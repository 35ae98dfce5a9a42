/** Who may do what, over all runs: the terms of every trade, who cancels an order, and which pairs exist. */
module TradeRules {
  import opened Base
  import opened Orders
  import opened FillMath
  import opened Ledger
  import opened Books
  import opened Settlement
  import opened World
  import opened Matching
  import opened TradeInvariants
  import opened Engine
  import opened Operations
  import opened Transitions
  import opened LifeCycle

  // ---------- The terms of trades ----------

  /** What an order still offered and wanted before trade `i`, by the log. */
  function OfferedThen(w: World, i: nat, id: OrderId): int
    requires i <= |w.trades| && id in w.orders
  {
    w.orders[id].sellAmount - Paid(w.trades[..i], id)
  }

  function WantedThen(w: World, i: nat, id: OrderId): int
    requires i <= |w.trades| && id in w.orders
  {
    w.orders[id].buyAmount - Received(w.trades[..i], id)
  }

  /** A trade is between a buy and a sell of one pair, at the maker's price, which suits the taker; it moves
      something both ways; and its amounts are worth each other at that price, up to less than one unit. */
  ghost predicate TradeOk(w: World, i: nat)
    requires i < |w.trades|
  {
    var t := w.trades[i];
    && t.taker in w.orders && t.maker in w.orders
    && var taker, maker := w.orders[t.taker], w.orders[t.maker];
       && taker.otype == t.otype && maker.otype == t.otype.Not()
       && t.pair in w.pairs && w.pairs[t.pair] == Pair(taker.base, taker.quote) == Pair(maker.base, maker.quote)
       && t.price == maker.price && PriceMatched(taker.price, t.otype, t.price)
       && 0 < t.fill.base && 0 < t.fill.quote
       && var (buyer, seller) := if t.otype.Buy? then (t.taker, t.maker) else (t.maker, t.taker);
          AtPrice(t.fill, OfferedThen(w, i, buyer), WantedThen(w, i, buyer), WantedThen(w, i, seller), t.price)
  }

  ghost predicate AllTradesOk(w: World) {
    forall i :: 0 <= i < |w.trades| ==> TradeOk(w, i)
  }

  /** The pairs of one world are those of another one with the same terms, and more. */
  ghost predicate PairsStay(w: World, w': World) {
    forall p <- w.pairs.Keys :: p in w'.pairs && w'.pairs[p] == w.pairs[p]
  }

  lemma TradesStayOk(w: World, w': World)
    requires AllTradesOk(w) && Evolves(w, w') && PairsStay(w, w')
    ensures forall i :: 0 <= i < |w.trades| ==> TradeOk(w', i)
  {
    hide AtPrice, Paid, Received;
    forall i | 0 <= i < |w.trades| ensures TradeOk(w', i) {
      assert TradeOk(w, i) && w'.trades[i] == w.trades[i] && w'.trades[..i] == w.trades[..i];
      var t := w.trades[i];
      assert Advances(w.orders[t.taker], w'.orders[t.taker]) && Advances(w.orders[t.maker], w'.orders[t.maker]);
    }
  }

  /** The next trade is at the maker's price. */
  lemma NextAtPrice(w: World, p: PairId, id: OrderId)
    requires p in w.books && id in w.orders && Poised(w, p, id) && MayTrade(w, p, id)
    ensures CanTrade(w, p, id)
    ensures var taker, maker := w.orders[id], w.orders[Front(w, p, id)];
            && FillAtPrice(SettledFront(w, p, id).fill, taker, maker)
            && taker.remainedSell == OfferedThen(w, |w.trades|, id)
            && taker.remainedBuy == WantedThen(w, |w.trades|, id)
            && maker.remainedSell == OfferedThen(w, |w.trades|, Front(w, p, id))
            && maker.remainedBuy == WantedThen(w, |w.trades|, Front(w, p, id))
  {
    hide Poised, Crossing, LevelOk, NotQueued, Paid, Received, Returned, FillFits, FillAtPrice, Tradable, Exchanged,
      Deducted, Started, Closed, CalculateExAmount, WithinLimit;
    NextTradable(w, p, id);
    FrontFacts(w, p, id);
    PoisedOrder(w, p, id);
    var front := Front(w, p, id);
    TradeFill(w.orders[id], w.orders[front]);
    SettledFill(w.ledger, w.orders[id].SellToken(), w.orders[front].SellToken(), w.orders[id], w.orders[front]);
    assert w.trades[..|w.trades|] == w.trades;
    assert LogOk(w, id) && LogOk(w, front);
    Unfilled(w.orders[front]);
  }

  lemma Unfilled(o: Order)
    requires OrderOk(o) && !o.IsFinished()
    ensures !o.status.Filled?
  {
  }

  lemma SettledFill(l: Ledger, give: TokenId, have: TokenId, taker: Order, maker: Order)
    requires 0 < maker.price && Settle(l, give, have, taker, maker).Ok?
    ensures CalculateExAmount(maker, taker) == Ok(Settle(l, give, have, taker, maker).value.fill)
  {
    hide CalculateExAmount, Exchanged, Deducted, Started, Closed;
  }

  lemma NextTradeOk(w: World, p: PairId, id: OrderId)
    requires p in w.books && id in w.orders && Poised(w, p, id) && MayTrade(w, p, id)
    ensures CanTrade(w, p, id)
    ensures var w' := TradeOnce(w, p, id);
            w'.pairs == w.pairs && Evolves(w, w') && w'.trades == w.trades + [w'.trades[|w.trades|]] &&
            TradeOk(w', |w.trades|)
  {
    hide Poised, Settle, SideAfter, LevelsAfter, StoredOk, LevelOk, NotQueued, OrderOk, AfterFill, TradeOnce, AtPrice,
      Paid, Received;
    TradeIsTraded(w, p, id);
    PoisedFacts(w, p, id);
    FrontFacts(w, p, id);
    NextAtPrice(w, p, id);
    var w', front, f := TradeOnce(w, p, id), Front(w, p, id), SettledFront(w, p, id).fill;
    TradedEvolves(w, w', p, id, front, f);
    assert Advances(w.orders[id], w'.orders[id]) && Advances(w.orders[front], w'.orders[front]);
    assert w'.trades[..|w.trades|] == w.trades == w.trades[..|w.trades|];
  }

  lemma OneMoreOk(w: World, w': World)
    requires |w'.trades| == |w.trades| + 1 && TradeOk(w', |w.trades|)
    requires forall i :: 0 <= i < |w.trades| ==> TradeOk(w', i)
    ensures AllTradesOk(w')
  {
    hide TradeOk;
  }

  lemma {:induction false} MatchTradesOk(w: World, p: PairId, id: OrderId)
    requires p in w.books && id in w.orders && Poised(w, p, id) && AllTradesOk(w)
    ensures AllTradesOk(Match(w, p, id)) && Match(w, p, id).pairs == w.pairs
    decreases !w.orders[id].status.Filled?, |Priority(Opposite(w, p, id))|
  {
    hide Poised, TradeOnce, Crossing, CanTrade, Priority, Opposite, TradeOk, Evolves, SameTerms;
    MatchUnfold(w, p, id);
    if MayTrade(w, p, id) {
      TradeProgress(w, p, id);
      NextTradeOk(w, p, id);
      TradesStayOk(w, TradeOnce(w, p, id));
      OneMoreOk(w, TradeOnce(w, p, id));
      MatchTradesOk(TradeOnce(w, p, id), p, id);
    }
  }

  lemma MatchedTradesOk(w: World, p: PairId, o: Order)
    requires Coherent(w, {}) && AllTradesOk(w) && Placeable(w, p, o) && Matched(w, p, o).Ok?
    ensures AllTradesOk(Matched(w, p, o).value)
  {
    hide Coherent, Poised, Match, Evolves, OrderOk, Freeze, Enqueued, TradeOk, Crossing;
    PlaceEvolves(w, p, o);
    PlaceKeeps(w, p, o);
    TradesStayOk(w, Place(w, p, o));
    MatchTradesOk(Place(w, p, o), p, o.id);
    var matched := Match(Place(w, p, o), p, o.id);
    if !matched.orders[o.id].status.Filled? {
      EnqueueOrders(matched, p, o.id);
      EvolvesSelf(matched);
      SameOrders(matched, matched, Enqueue(matched, p, o.id));
      TradesStayOk(matched, Enqueue(matched, p, o.id));
    }
  }

  lemma NextTradesOk(w: World, c: Call)
    requires Coherent(w, {}) && Covered(w, c) && AllTradesOk(w)
    ensures AllTradesOk(Next(w, c))
  {
    hide Coherent, Evolves, TradeOk, SharesLevel, LimitOrderCall, Matched, Placeable, Place, Admitted, OrderOf;
    if c.CreateLimitOrder? && Perform(w, c).Ok? {
      CoherentParts(w);
      LimitOrderPlaced(w, c.sender, c.base, c.quote, c.otype, c.price, c.sellAmount, c.order);
      MatchedTradesOk(w, w.pairOf[(c.base, c.quote)],
        OrderOf(c.sender, c.base, c.quote, c.otype, c.price, c.sellAmount, c.order));
    } else {
      NextEvolves(w, c);
      QuietCall(w, c);
      TradesStayOk(w, Next(w, c));
    }
  }

  lemma QuietCall(w: World, c: Call)
    requires Covered(w, c) && (c.CreateLimitOrder? ==> Perform(w, c).Err?)
    ensures PairsStay(w, Next(w, c)) && Next(w, c).trades == w.trades
  {
    hide LimitOrderCall, SharesLevel, Transfer, Issue, Unfreeze, InsertIndex, Retain;
  }

  /** Over all runs every trade is on the terms of both of its orders. */
  lemma {:induction false} TradeTerms(calls: seq<Call>)
    requires AllCovered(GENESIS, calls)
    ensures AllTradesOk(Run(GENESIS, calls))
  {
    hide Coherent, Covered, Perform, Next, TradeOk;
    if calls != [] {
      var before := calls[..|calls| - 1];
      RunKeeps(before);
      TradeTerms(before);
      NextTradesOk(Run(GENESIS, before), calls[|calls| - 1]);
    }
  }

  // ---------- Cancellation ----------

  ghost predicate NoneCanceled(w: World, w': World) {
    forall x <- w.orders.Keys :: x in w'.orders && (w'.orders[x].status.Canceled? ==> w.orders[x].status.Canceled?)
  }

  lemma TradeCancelsNone(w: World, w': World, p: PairId, id: OrderId, front: OrderId, f: Fill)
    requires Traded(w, w', p, id, front, f)
    ensures NoneCanceled(w, w')
  {
    hide NotQueued, SideAfter, OrderOk, Resting;
  }

  lemma {:induction false} MatchCancelsNone(w: World, p: PairId, id: OrderId)
    requires p in w.books && id in w.orders && Poised(w, p, id)
    ensures NoneCanceled(w, Match(w, p, id))
    decreases !w.orders[id].status.Filled?, |Priority(Opposite(w, p, id))|
  {
    hide Poised, TradeOnce, Crossing, CanTrade, Priority, Opposite, Traded, SameTerms;
    MatchUnfold(w, p, id);
    if MayTrade(w, p, id) {
      TradeProgress(w, p, id);
      FrontOwner(w, p, id);
      TradeIsTraded(w, p, id);
      TradeCancelsNone(w, TradeOnce(w, p, id), p, id, Front(w, p, id), SettledFront(w, p, id).fill);
      MatchCancelsNone(TradeOnce(w, p, id), p, id);
    }
  }

  lemma MatchedCancelsNone(w: World, p: PairId, o: Order)
    requires Coherent(w, {}) && Placeable(w, p, o) && Matched(w, p, o).Ok?
    ensures NoneCanceled(w, Matched(w, p, o).value)
  {
    hide Coherent, Poised, Match, Evolves, OrderOk, Freeze, Enqueue, Crossing;
    PlaceEvolves(w, p, o);
    PlaceKeeps(w, p, o);
    MatchCancelsNone(Place(w, p, o), p, o.id);
    EnqueueOrders(Match(Place(w, p, o), p, o.id), p, o.id);
  }

  /** Only its owner's cancellation cancels an order, and only while it is unfinished. */
  lemma CanceledByOwner(w: World, c: Call, x: OrderId)
    requires Coherent(w, {}) && Covered(w, c) && x in w.orders && !w.orders[x].status.Canceled?
    ensures x in Next(w, c).orders
    ensures Next(w, c).orders[x].status.Canceled? ==>
              c == CancelLimitOrder(w.orders[x].owner, x) && !w.orders[x].IsFinished()
  {
    hide Coherent, SharesLevel, LimitOrderCall, CancelCall, Matched, Placeable, Place, Admitted, OrderOf;
    if Perform(w, c).Ok? {
      match c
      case CreateLimitOrder(sender, base, quote, otype, price, sellAmount, order) =>
        CoherentParts(w);
        LimitOrderPlaced(w, sender, base, quote, otype, price, sellAmount, order);
        MatchedCancelsNone(w, w.pairOf[(base, quote)], OrderOf(sender, base, quote, otype, price, sellAmount, order));
      case CancelLimitOrder(sender, order) =>
        CancelUnfinished(w, sender, order);
        CancelCallKeeps(w, sender, order);
      case _ =>
    }
  }

  // ---------- Pairs ----------

  lemma {:induction false} MatchPairs(w: World, p: PairId, id: OrderId)
    requires p in w.books && id in w.orders
    ensures Match(w, p, id).pairOf == w.pairOf
    decreases !w.orders[id].status.Filled?, |Priority(Opposite(w, p, id))|
  {
    hide CanTrade, Priority;
    if MayTrade(w, p, id) && Progresses(w, TradeOnce(w, p, id), p, id) {
      MatchPairs(TradeOnce(w, p, id), p, id);
    }
  }

  /** A pair has two different tokens, and is not listed the other way round. */
  ghost predicate PairUnique(w: World, a: TokenId, b: TokenId) {
    (a, b) in w.pairOf ==> a != b && (b, a) !in w.pairOf
  }

  lemma NextPairs(w: World, c: Call)
    ensures !c.CreateTradePair? ==> Next(w, c).pairOf == w.pairOf
  {
    hide Transfer, Issue, Unfreeze, InsertIndex, Retain, LimitOrderCall;
    if c.CreateLimitOrder? && Perform(w, c).Ok? {
      LimitOrderPairs(w, c.sender, c.base, c.quote, c.otype, c.price, c.sellAmount, c.order);
    }
  }

  lemma LimitOrderPairs(w: World, sender: AccountId, base: TokenId, quote: TokenId, otype: OrderType,
                        price: Price, sellAmount: nat, id: OrderId)
    requires LimitOrderCall(w, sender, base, quote, otype, price, sellAmount, id).Ok?
    ensures LimitOrderCall(w, sender, base, quote, otype, price, sellAmount, id).value.pairOf == w.pairOf
  {
    hide Match, Freeze, EnsureCounterpartyAmountBounds;
    var o := NewOrder(id, base, quote, sender, price, sellAmount,
                      EnsureCounterpartyAmountBounds(otype, price, sellAmount).value, otype);
    MatchPairs(Place(w, w.pairOf[(base, quote)], o), w.pairOf[(base, quote)], id);
  }

  /** Over all runs no two tokens have more than one pair, and every pair was listed by the owner of one of them. */
  lemma {:induction false} OnePairPerTokens(calls: seq<Call>, a: TokenId, b: TokenId)
    ensures PairUnique(Run(GENESIS, calls), a, b)
    ensures (a, b) in Run(GENESIS, calls).pairOf ==> ListedByOwner(calls, a, b)
  {
    if calls != [] {
      var before, c := calls[..|calls| - 1], calls[|calls| - 1];
      OnePairPerTokens(before, a, b);
      OnePairPerTokens(before, b, a);
      NextPairs(Run(GENESIS, before), c);
    }
  }

  /** The owner of one of two tokens has asked for their pair. */
  ghost predicate ListedByOwner(calls: seq<Call>, a: TokenId, b: TokenId) {
    calls != [] &&
    var before, c := calls[..|calls| - 1], calls[|calls| - 1];
    var owners := Run(GENESIS, before).ledger.owners;
    ListedByOwner(before, a, b) ||
    (c.CreateTradePair? && c.base == a && c.quote == b && a in owners && b in owners &&
     (c.sender == owners[a] || c.sender == owners[b]))
  }
}

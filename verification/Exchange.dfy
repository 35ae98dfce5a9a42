/** The trade pallet: its storage, and the calls that update it step by step together with the token
    ledger, the price lists and the market data. */
module Exchange {
  import opened Base
  import opened Orders
  import opened FillMath
  import opened Books
  import opened Settlement
  import opened World
  import opened Matching
  import opened TradeInvariants
  import opened Engine
  import opened Operations
  import opened Transitions
  import L = Ledger
  import T = Tokens
  import P = PriceLists
  import M = MarketData

  /** The token that an order of a pair gives, and the one it gets. */
  function GiveToken(p: Pair, otype: OrderType): TokenId {
    if otype.Buy? then p.base else p.quote
  }

  function HaveToken(p: Pair, otype: OrderType): TokenId {
    if otype.Buy? then p.quote else p.base
  }

  /** What the next trade of a poised order relies on. */
  lemma ExecutionFacts(w: World, p: PairId, id: OrderId)
    requires p in w.books && id in w.orders && Poised(w, p, id) && Crossing(w, p, id)
    ensures Opposite(w, p, id) != [] && Opposite(w, p, id)[0].orders != [] && Front(w, p, id) in w.orders
    ensures p in w.pairs
    ensures var taker, maker := w.orders[id], w.orders[Front(w, p, id)];
            && Front(w, p, id) != id && maker.id == Front(w, p, id) && taker.id == id
            && 0 < maker.price < U128_MAX && maker.price == Opposite(w, p, id)[0].price
            && taker.SellToken() == GiveToken(w.pairs[p], taker.otype)
            && maker.SellToken() == HaveToken(w.pairs[p], taker.otype)
            && (CanTrade(w, p, id) <==> Settle(w.ledger, taker.SellToken(), maker.SellToken(), taker, maker).Ok?)
  {
    hide Poised, LevelsAfter, LevelOk, NotQueued, Settle, OrderOk;
    PoisedFacts(w, p, id);
    FrontFacts(w, p, id);
    StoredIsOk(w, Front(w, p, id));
    PriceBounded(w.orders[Front(w, p, id)]);
    FrontPrice(w, p, id);
  }

  lemma FrontPrice(w: World, p: PairId, id: OrderId)
    requires p in w.books && id in w.orders && Poised(w, p, id) && Opposite(w, p, id) != []
    ensures 0 < Opposite(w, p, id)[0].price < U128_MAX
  {
    hide L.Orderly, PairsOk, OrdersOk, Backed, Listed, TradesOk, NotQueued, SideOk;
    assert BookOk(w.orders, w.pairs[p], w.books[p]);
  }

  /** The reference matcher's trade, with its book written as what the list operations compute: the
      traded amounts are taken off the best level and the finished front is cleaned up. */
  lemma CleanupIsTrade(w: World, p: PairId, id: OrderId)
    requires p in w.books && id in w.orders && Poised(w, p, id) && MayTrade(w, p, id)
    ensures CanTrade(w, p, id)
    ensures var taker, side, front := w.orders[id], w.orders[id].otype.Not(), Front(w, p, id);
            var levels, s := w.books[p].Side(side), SettledFront(w, p, id);
            var give, have := GiveOf(s.fill, taker.otype), HaveOf(s.fill, taker.otype);
            var reduced := levels[0 := Reduced(levels[0], have, give, s.makerBack)];
            var orders := w.orders[id := s.taker][front := s.maker];
            TradeOnce(w, p, id) ==
              World(s.ledger, w.pairs, w.pairOf, orders,
                    w.books[p := w.books[p].WithSide(side, Cleaned(orders, reduced))],
                    w.trades + [Trade(p, id, front, taker.otype, w.orders[front].price, s.fill,
                                      s.takerBack, s.makerBack)])
  {
    hide Poised, Crossing, Settle, LevelsAfter, SideOk, Cleaned, Reduced;
    PoisedFacts(w, p, id);
    TradeKeepsPoised(w, p, id);
    var w', taker, side := TradeOnce(w, p, id), w.orders[id], w.orders[id].otype.Not();
    var levels, s, front := w.books[p].Side(side), SettledFront(w, p, id), Front(w, p, id);
    var give, have := GiveOf(s.fill, taker.otype), HaveOf(s.fill, taker.otype);
    AfterSide(w', p, side, id);
    WithSideTwice(w.books[p], side,
                  LevelsAfter(levels, give, have, s.makerBack, w'.orders[front].IsFinished()), levels);
    CleanedAfterTrade(w'.orders, w'.pairs[p], side, levels, give, have, s.makerBack);
  }

  lemma AfterSide(w: World, p: PairId, side: OrderType, id: OrderId)
    requires p in w.books && id in w.orders && Poised(w, p, id)
    ensures p in w.pairs && SideOk(w.orders, w.pairs[p], side, w.books[p].Side(side))
  {
    hide Poised, SideOk, Sorted, OrdersOk, PairsOk, Backed, Listed, TradesOk, OrderOk, NotQueued, L.Orderly;
    PoisedOrder(w, p, id);
    assert BookOk(w.orders, w.pairs[p], w.books[p]);
  }

  /** While the incoming order is unfilled, a trade leaves the rest of the front queue in front. */
  lemma LevelAdvances(w: World, p: PairId, id: OrderId)
    requires p in w.books && id in w.orders && Poised(w, p, id) && MayTrade(w, p, id)
    ensures CanTrade(w, p, id)
    ensures var w', l := TradeOnce(w, p, id), Opposite(w, p, id)[0];
            !w'.orders[id].status.Filled? && |l.orders| > 1 ==>
              Crossing(w', p, id) && Opposite(w', p, id) != [] && Opposite(w', p, id)[0].orders == l.orders[1..]
  {
    hide Poised, Crossing, CanTrade, TradeOnce, FillFits, LevelOk, NotQueued, Settle, AfterFill, OrderOk, Priority;
    PoisedFacts(w, p, id);
    TradeProgress(w, p, id);
    TradeIsTraded(w, p, id);
    LevelLeft(w, TradeOnce(w, p, id), p, id, Front(w, p, id), SettledFront(w, p, id).fill);
  }

  lemma LevelLeft(w: World, w': World, p: PairId, id: OrderId, front: OrderId, f: Fill)
    requires Traded(w, w', p, id, front, f) && Crossing(w, p, id)
    requires w'.orders[front].IsFinished() || w'.orders[id].status.Filled?
    ensures var l := Opposite(w, p, id)[0];
            !w'.orders[id].status.Filled? && |l.orders| > 1 ==>
              Crossing(w', p, id) && Opposite(w', p, id) != [] && Opposite(w', p, id)[0].orders == l.orders[1..]
  {
    hide OrderOk, NotQueued, Resting;
    var t := w.orders[id];
    StakeAfterFill(t, GiveOf(f, t.otype), HaveOf(f, t.otype), (0, 0));
  }

  /** The matching loop goes on exactly while the order crosses, with one exception: a buy at the
      largest price takes the top sentinel of an empty side for a level, finds no orders in it, and
      comes back to it forever. */
  lemma LoopGuardExact(b: Book, otype: OrderType, price: Price)
    requires Sorted(b) && 0 < price <= U128_MAX
    ensures var neighbour := if otype.Buy? then HeadNext(b) else HeadPrev(b);
            var levels := b.Side(otype.Not());
            neighbour != EndItemPrice(otype) && PriceMatched(price, otype, neighbour.value) <==>
              (levels != [] && PriceMatched(price, otype, levels[0].price)) ||
              (levels == [] && otype.Buy? && price == U128_MAX)
  {
  }

  function EndItemPrice(otype: OrderType): Links.Key {
    if otype.Buy? then Some(0) else Some(U128_MAX)
  }

  /** The top sentinel is stored and queues no orders. */
  lemma TopStored(items: Links.Items, b: Book)
    requires Represents(items, b)
    ensures Some(U128_MAX) in items
    ensures items[Some(U128_MAX)].price == Some(U128_MAX) && items[Some(U128_MAX)].orders == []
  {
    assert Links.ChainPlaced(items, Chain(b), |b.bids| + |b.asks| + 2);
  }

  /** Queueing an order at the largest price, where the list stores its top sentinel, breaks the list. */
  lemma AppendAtTopBreaks(items: Links.Items, b: Book, id: OrderId, sell: nat, buy: nat, b': Book)
    requires Represents(items, b)
    requires Some(U128_MAX) in items && items[Some(U128_MAX)].price == Some(U128_MAX)
    ensures !Represents(Links.Rewritten(items, Pushed(items[Some(U128_MAX)], id, sell, buy)), b')
  {
    TopStored(items, b);
    var items' := Links.Rewritten(items, Pushed(items[Some(U128_MAX)], id, sell, buy));
    if Represents(items', b') {
      TopStored(items', b');
    }
  }

  /** Of any price, `append` leaves the list of a book exactly if it is not the top sentinel's. */
  lemma AppendWellFormed(items: Links.Items, b: Book, side: OrderType, price: Price, id: OrderId, sell: nat, buy: nat)
    requires Represents(items, b)
    requires 0 < price <= U128_MAX && sell <= U128_MAX && buy <= U128_MAX
    requires var other := b.Side(side.Not()); other != [] ==> !PriceMatched(price, side, other[0].price)
    ensures (exists b' :: Represents(AppendedItems(items, b, side, price, id, sell, buy), b')) <==> price < U128_MAX
  {
    hide Represents, Links.Rewritten, Links.LinkedIn, Pushed, Enqueued, InsertionItem;
    if price < U128_MAX {
      AppendRepresents(items, b, side, price, id, sell, buy);
      assert Represents(AppendedItems(items, b, side, price, id, sell, buy),
                        b.WithSide(side, Enqueued(side, b.Side(side), price, id, sell, buy)));
    } else {
      TopStored(items, b);
      forall b' ensures !Represents(AppendedItems(items, b, side, price, id, sell, buy), b') {
        AppendAtTopBreaks(items, b, id, sell, buy, b');
      }
    }
  }

  /** What `append` leaves: a stored price gets the order pushed, another one is linked in. */
  function AppendedItems(items: Links.Items, b: Book, side: OrderType, price: Price, id: OrderId, sell: nat, buy: nat):
    Links.Items
  {
    var at := InsertionItem(b, side, price);
    if Some(price) in items && items[Some(price)].price == Some(price) then
      Links.Rewritten(items, Pushed(items[Some(price)], id, sell, buy))
    else if at.price in items && at.next in items then
      Links.LinkedIn(items, at.price, Links.Node(Some(price), buy, sell, [id]))
    else items
  }

  function BlocksOf(ticks: seq<M.Tick>): seq<nat> {
    seq(|ticks|, i requires 0 <= i < |ticks| => ticks[i].block)
  }

  /** The trades as the market data sees them, given the blocks that they were executed in: the amount of a
      trade is what it moved of the quote token. */
  function TicksOf(trades: seq<Trade>, blocks: seq<nat>): (ticks: seq<M.Tick>)
    requires |blocks| == |trades|
    ensures |ticks| == |trades|
    ensures forall i :: 0 <= i < |ticks| ==>
              && ticks[i].pair == trades[i].pair && ticks[i].block == blocks[i]
              && ticks[i].price == trades[i].price && ticks[i].amount == trades[i].fill.quote
  {
    seq(|trades|, i requires 0 <= i < |trades| =>
      M.Tick(trades[i].pair, blocks[i], trades[i].price, trades[i].fill.quote))
  }

  /** The market data has seen exactly the trades that were executed. */
  ghost predicate Logged(ticks: seq<M.Tick>, trades: seq<Trade>) {
    |ticks| == |trades| && ticks == TicksOf(trades, BlocksOf(ticks))
  }

  lemma LoggedMore(ticks: seq<M.Tick>, trades: seq<Trade>, tick: M.Tick, trade: Trade)
    requires Logged(ticks, trades)
    requires tick.pair == trade.pair && tick.price == trade.price && tick.amount == trade.fill.quote
    ensures Logged(ticks + [tick], trades + [trade])
  {
    var ticks', trades' := ticks + [tick], trades + [trade];
    forall i | 0 <= i < |ticks| ensures ticks'[i] == TicksOf(trades', BlocksOf(ticks'))[i] {
      assert ticks'[i] == ticks[i] == TicksOf(trades, BlocksOf(ticks))[i];
    }
  }

  /** A world whose book for pair `p` has been set up. */
  function WithBook(w: World, p: PairId): World {
    w.(books := Opened(w.books, p))
  }

  /** What the matching loop finds next to the head of the opposite side: the best level of it, stored
      with its queue, if and only if the order crosses. */
  lemma LoopGuard(w: World, p: PairId, id: OrderId, items: Links.Items)
    requires p in w.books && id in w.orders && Poised(w, p, id) && !w.orders[id].status.Filled?
    requires Finishes(w, p, id)
    requires Represents(items, w.books[p])
    ensures var o := w.orders[id];
            var neighbour := if o.otype.Buy? then HeadNext(w.books[p]) else HeadPrev(w.books[p]);
            && (neighbour != EndItemPrice(o.otype) && PriceMatched(o.price, o.otype, neighbour.value)
                <==> Crossing(w, p, id))
            && (Crossing(w, p, id) ==>
                  && Opposite(w, p, id) != [] && neighbour in items
                  && items[neighbour].orders == Opposite(w, p, id)[0].orders != [])
  {
    hide Poised, LevelOk, NotQueued, Represents, OrderOk, Sorted, StoredOk, Resting, Match, CanTrade;
    var o, b := w.orders[id], w.books[p];
    MatchUnfold(w, p, id);
    RepresentedSorted(items, b);
    PoisedOrder(w, p, id);
    PriceBounded(o);
    LoopGuardExact(b, o.otype, o.price);
    if Crossing(w, p, id) {
      FrontFacts(w, p, id);
      BestPrice(items, b, o.otype.Not());
      QueueStored(items, b, o.otype.Not(), 0);
    }
  }

  /** Where matching stops and does not end, the order has the largest price and is unfilled. A buy then
      finds the top sentinel next to the head, without orders, and goes round forever; a sell goes on to
      queue itself at the top sentinel, which leaves no list of any book. */
  lemma NeverEnds(w: World, p: PairId, id: OrderId, items: Links.Items)
    requires p in w.books && id in w.orders && Poised(w, p, id) && !MayTrade(w, p, id) && !Ends(w, p, id)
    requires Represents(items, w.books[p])
    ensures var o := w.orders[id];
            && o.price == U128_MAX && !o.status.Filled?
            && (o.otype.Buy? ==>
                  var neighbour := HeadNext(w.books[p]);
                  && neighbour != EndItemPrice(o.otype) && PriceMatched(o.price, o.otype, neighbour.value)
                  && neighbour in items && items[neighbour].orders == [])
            && (o.otype.Sell? ==>
                  forall b' :: !Represents(AppendedItems(items, w.books[p], o.otype, o.price, id,
                                                         o.remainedSell, o.remainedBuy), b'))
  {
    hide Poised, Represents, OrderOk, NotQueued, CanTrade, Sorted, AppendedItems, L.Orderly, PairsOk, OrdersOk, Backed,
      BooksOk, Listed, TradesOk;
    var o, b := w.orders[id], w.books[p];
    PoisedOrder(w, p, id);
    PriceBounded(o);
    RepresentedSorted(items, b);
    RestsAbove(b, o.price);
    TopStored(items, b);
    if o.otype.Sell? {
      AmountsOf(o);
      AppendWellFormed(items, b, o.otype, o.price, id, o.remainedSell, o.remainedBuy);
    }
  }

  lemma RestsAbove(b: Book, price: Price)
    requires Sorted(b) && price == U128_MAX
    ensures b.bids != [] ==> !PriceMatched(price, Sell, b.bids[0].price)
    ensures b.asks != [] ==> PriceMatched(price, Buy, b.asks[0].price)
  {
  }

  lemma AmountsOf(o: Order)
    requires OrderOk(o)
    ensures o.remainedSell <= U128_MAX && o.remainedBuy <= U128_MAX
  {
  }

  lemma RepresentedSorted(items: Links.Items, b: Book)
    requires Represents(items, b)
    ensures Sorted(b)
  {
  }

  lemma QueueStored(items: Links.Items, b: Book, side: OrderType, i: nat)
    requires Represents(items, b) && i < |b.Side(side)|
    ensures Some(b.Side(side)[i].price) in items && items[Some(b.Side(side)[i].price)].orders == b.Side(side)[i].orders
  {
    LevelStored(items, b, side, i);
  }

  /** An order that does not cross and is unfilled may be queued at its price. */
  lemma RestedPrice(w: World, p: PairId, id: OrderId)
    requires p in w.books && id in w.orders && Poised(w, p, id)
    requires !Crossing(w, p, id) && !w.orders[id].status.Filled? && Ends(w, p, id)
    ensures var o := w.orders[id];
            && 0 < o.price < U128_MAX && o.remainedSell <= U128_MAX && o.remainedBuy <= U128_MAX
            && var other := w.books[p].Side(o.otype.Not());
               other != [] ==> !PriceMatched(o.price, o.otype, other[0].price)
  {
    hide Poised, L.Orderly, PairsOk, Backed, BooksOk, Listed, TradesOk, OrdersOk, NotQueued;
    PoisedOrder(w, p, id);
  }

  lemma NotRepresented(items: Links.Items, b: Book, side: OrderType, i: nat, id: OrderId, sell: nat, buy: nat)
    requires Represents(items, b) && i < |b.Side(side)| && Retain(b.Side(side)[i].orders, id) == []
    ensures Some(b.Side(side)[i].price) in items
    ensures !Represents(Withdrawn(items, b.Side(side)[i].price, id, sell, buy), b)
  {
    QueueStored(items, b, side, i);
    WithdrawBreaks(items, b, side, i, id, sell, buy, Chain(b));
  }

  /** The order has left the queue of its price, in which the others keep their places; so does every other queue. */
  ghost predicate LeavesQueue(items: Links.Items, items': Links.Items, price: Price, id: OrderId) {
    && Some(price) in items && Some(price) in items'
    && (forall pre, post :: items[Some(price)].orders == pre + [id] + post && id !in pre && id !in post ==>
          items'[Some(price)].orders == pre + post)
    && (forall k <- items.Keys :: k != Some(price) ==> k in items' && items'[k].orders == items[k].orders)
  }

  lemma WithdrawnLeaves(items: Links.Items, price: Price, id: OrderId, sell: nat, buy: nat)
    requires Some(price) in items && id in items[Some(price)].orders
    ensures LeavesQueue(items, Withdrawn(items, price, id, sell, buy), price, id)
  {
    hide Withdrawn;
    WithdrawnOthers(items, price, id, sell, buy);
    forall pre, post | items[Some(price)].orders == pre + [id] + post && id !in pre && id !in post
      ensures Withdrawn(items, price, id, sell, buy)[Some(price)].orders == pre + post
    {
      WithdrawnQueue(items, price, id, sell, buy, pre, post);
    }
  }

  /** What every cancellation that succeeds does: the order is canceled, what it still offered is unfrozen,
      and its total amounts are withdrawn from its level in the stored list. */
  ghost predicate CancelEffect(w: World, items: map<PairId, Links.Items>, o: Order,
                           w': World, items': map<PairId, Links.Items>)
  {
    && (o.base, o.quote) in w.pairOf
    && var p := w.pairOf[(o.base, o.quote)];
       && p in items && Some(o.price) in items[p]
       && items' == items[p := Withdrawn(items[p], o.price, o.id, o.sellAmount, o.buyAmount)]
       && LeavesQueue(items[p], items'[p], o.price, o.id)
       && w'.orders == w.orders[o.id := o.(status := Canceled)]
       && L.Unfreeze(w.ledger, o.owner, o.SellToken(), o.remainedSell) == Ok(w'.ledger)
       && w'.pairs == w.pairs && w'.pairOf == w.pairOf && w'.trades == w.trades
  }

  /** One trade lies between two worlds; if the incoming order is not filled yet, the rest of the level
      stands in front. */
  ghost predicate Advanced(w: World, w': World, p: PairId, id: OrderId)
    requires p in w.books && id in w.orders
  {
    && p in w'.books && id in w'.orders && Poised(w', p, id)
    && Match(w, p, id) == Match(w', p, id)
    && Opposite(w, p, id) != [] && Progresses(w, w', p, id)
    && (!w'.orders[id].status.Filled? ==> |Priority(Opposite(w', p, id))| + 1 == |Priority(Opposite(w, p, id))|)
    && (!w'.orders[id].status.Filled? && |Opposite(w, p, id)[0].orders| > 1 ==>
          Crossing(w', p, id) && Opposite(w', p, id) != [] &&
          Opposite(w', p, id)[0].orders == Opposite(w, p, id)[0].orders[1..])
  }

  /** Matching the order leaves the loop, without a sum or product that leaves `u128`. */
  ghost predicate Finishes(w: World, p: PairId, id: OrderId)
    requires p in w.books && id in w.orders
  {
    var m := Match(w, p, id);
    !Crossing(m, p, id) && Ends(m, p, id)
  }

  /** The next trade of a level leaves the rest of the level in front. */
  lemma LevelStep(w: World, p: PairId, id: OrderId)
    requires p in w.books && id in w.orders && Poised(w, p, id) && Crossing(w, p, id) && Finishes(w, p, id)
    ensures CanTrade(w, p, id) && Advanced(w, TradeOnce(w, p, id), p, id)
    ensures p in TradeOnce(w, p, id).books && id in TradeOnce(w, p, id).orders
    ensures TradeOnce(w, p, id).orders[id].id == id
  {
    hide Poised, Crossing, CanTrade, TradeOnce, Match, Ends, Priority, SameTerms;
    MatchUnfold(w, p, id);
    FrontOwner(w, p, id);
    TradeProgress(w, p, id);
    LevelAdvances(w, p, id);
    StoredUnderId(TradeOnce(w, p, id), p, id);
  }

  lemma FinishesOn(w: World, w': World, p: PairId, id: OrderId)
    requires p in w.books && id in w.orders && Finishes(w, p, id) && Advanced(w, w', p, id)
    ensures p in w'.books && id in w'.orders && Finishes(w', p, id)
  {
    hide Match, Crossing, Ends, Poised, Progresses;
  }

  lemma FilledRests(w: World, p: PairId, id: OrderId)
    requires p in w.books && id in w.orders
    ensures w.orders[id].status.Filled? ==> !Crossing(w, p, id)
  {
  }

  lemma FreezeFits(w: World, sender: AccountId, token: TokenId, amount: nat)
    requires L.Orderly(w.ledger)
    ensures L.WrappingFreeze(w.ledger, sender, token, amount) == L.Freeze(w.ledger, sender, token, amount)
  {
    hide L.Orderly, L.Freeze, L.WrappingFreeze;
    L.FreezeExact(w.ledger, sender, token, amount);
    L.WrappingAgrees(w.ledger, sender, sender, token, amount);
  }

  lemma FundsFreezable(w: World, p: PairId, o: Order)
    requires Placeable(w, p, o)
    ensures L.Freeze(w.ledger, o.owner, o.SellToken(), o.sellAmount).Ok?
  {
  }

  /** Matching a placed order leaves the loop, unless a sum or product leaves `u128`, or it is unfilled at
      the largest price. */
  lemma PlacedFinishes(w: World, p: PairId, o: Order)
    requires Coherent(w, {}) && Placeable(w, p, o) && Matched(w, p, o) != Err(ArithmeticOverflow)
    requires o.price < U128_MAX || (Matched(w, p, o).Ok? ==>
               o.id in Matched(w, p, o).value.orders && Matched(w, p, o).value.orders[o.id].status.Filled?)
    ensures p in Place(w, p, o).books && o.id in Place(w, p, o).orders
    ensures Finishes(Place(w, p, o), p, o.id) && Matched(w, p, o).Ok?
  {
    hide Coherent, OrderOk, L.Freeze, Poised, Crossing, Match, MatchFits, NextError, Place, Enqueued;
    PlaceKeeps(w, p, o);
    PlacedPrice(w, p, o);
    MatchedExact(w, p, o);
    MatchFitsExact(Place(w, p, o), p, o.id);
    LogGrows(Place(w, p, o), p, o.id);
  }

  lemma PriceBounded(o: Order)
    requires OrderOk(o)
    ensures 0 < o.price <= U128_MAX && o.sellAmount <= U128_MAX && o.buyAmount <= U128_MAX
  {
  }

  lemma StoredUnderId(w: World, p: PairId, id: OrderId)
    requires p in w.books && id in w.orders && Poised(w, p, id)
    ensures w.orders[id].id == id && p in w.pairs
  {
    hide L.Orderly, PairsOk, Backed, BooksOk, Listed, TradesOk, OrderOk;
    assert StoredOk(w, id);
  }

  lemma FullyProgressed(w: World, w': World, p: PairId, id: OrderId)
    requires p in w.books && id in w.orders && p in w'.books && id in w'.orders
    requires w'.orders[id].status.Filled? || |Priority(Opposite(w', p, id))| < |Priority(Opposite(w, p, id))|
    ensures Progresses(w, w', p, id)
  {
  }

  /** A cancellation that passes its checks. */
  predicate MayCancel(w: World, sender: AccountId, id: OrderId) {
    && id in w.orders && w.orders[id].owner == sender && !w.orders[id].IsFinished()
    && (w.orders[id].base, w.orders[id].quote) in w.pairOf
  }

  /** A cancellation that passes its checks is carried out. */
  lemma CancelIs(w: World, sender: AccountId, id: OrderId)
    requires Coherent(w, {}) && MayCancel(w, sender, id)
    ensures var o := w.orders[id];
            var p := w.pairOf[(o.base, o.quote)];
            && o.id == id && p in w.books
            && QueuedAt(w.books[p].Side(o.otype), LevelIndex(w, p, o), o)
            && LevelIndex(w, p, o) < |w.books[p].Side(o.otype)|
            && var levels := w.books[p].Side(o.otype);
               var refund := L.Unfreeze(w.ledger, o.owner, o.SellToken(), o.remainedSell);
               && refund.Ok?
               && (SharesLevel(w, o) <==> Retain(levels[LevelIndex(w, p, o)].orders, id) != [])
               && CancelCall(w, sender, id) ==
                    Ok(w.(ledger := refund.value,
                          orders := w.orders[id := o.(status := Canceled)],
                          books := w.books[p := w.books[p].WithSide(o.otype,
                            levels[LevelIndex(w, p, o) := CanceledLevel(levels[LevelIndex(w, p, o)], o)])]))
  {
    hide Coherent, Retain, CanceledLevel, L.Unfreeze, QueuedAt, InsertIndex, OrderOk;
    UnfinishedInList(w, id);
    CoherentParts(w);
    StoredNow(w, id);
    var o := w.orders[id];
    var p := w.pairOf[(o.base, o.quote)];
    QueuedIndex(w.books[p].Side(o.otype), LevelIndex(w, p, o), o);
    CancelReady(w, sender, id);
  }

  /** A call ended as the state machine says: in its new state, or with its error and no change. */
  ghost predicate Performed(w: World, c: Call, r: Result<()>, w': World) {
    var next := Perform(w, c);
    if next.Ok? then r.Ok? && w' == next.value else r == Err(next.error) && w' == w
  }

  lemma PerformedNext(w: World, c: Call, r: Result<()>, w': World)
    requires Performed(w, c, r, w')
    ensures w' == Next(w, c)
  {
  }

  class Exchange {
    const tokens: T.TokenLedger
    const list: P.PriceList
    const market: M.Market

    var pairs: map<PairId, Pair>
    var pairOf: map<(TokenId, TokenId), PairId>
    var orders: map<OrderId, Order>
    var trades: seq<Trade>

    ghost function View(): World
      reads this, tokens, list
    {
      World(tokens.View(), pairs, pairOf, orders, list.books, trades)
    }

    /** The stored lists are well-formed, and the market data follows the pairs and the trades. */
    ghost predicate Valid()
      reads this, list, market
    {
      list.Valid() && market.Valid() && market.tradePairs.Keys == pairs.Keys && Logged(market.ticks, trades)
    }

    constructor ()
      ensures Valid() && View() == GENESIS
      ensures fresh(tokens) && fresh(list) && fresh(market)
    {
      tokens := new T.TokenLedger();
      list := new P.PriceList();
      market := new M.Market();
      pairs, pairOf, orders, trades := map[], map[], map[], [];
    }

    /** Both shares of a trade are unfrozen and change hands. */
    method ExchangeFunds(a: AccountId, give: TokenId, g: nat, b: AccountId, have: TokenId, h: nat)
      returns (r: Result<()>)
      modifies tokens
      ensures var e := Exchanged(old(tokens.View()), a, give, g, b, have, h);
              e != Err(ArithmeticOverflow) ==>
                if e.Ok? then r.Ok? && tokens.View() == e.value else r == Err(e.error)
    {
      r := Ok(());
      hide L.Unfreeze, L.Transfer, L.WrappingUnfreeze, L.WrappingTransfer;
      L.WrappingAgrees(tokens.View(), a, b, give, g);
      var _ :- tokens.DoUnfreeze(a, give, g);
      L.WrappingAgrees(tokens.View(), b, a, have, h);
      var _ :- tokens.DoUnfreeze(b, have, h);
      L.WrappingAgrees(tokens.View(), a, b, give, g);
      var _ :- tokens.DoTransfer(a, b, give, g);
      L.WrappingAgrees(tokens.View(), b, a, have, h);
      var _ :- tokens.DoTransfer(b, a, have, h);
    }

    /** Fills an order that has got all it wants, and unfreezes what it did not need, `back`. */
    method CloseIfFilled(o: Order, token: TokenId) returns (r: Result<(Order, nat)>)
      modifies tokens
      ensures var c := Closed(old(tokens.View()), o, token);
              c != Err(ArithmeticOverflow) ==>
                if c.Ok? then r == Ok((c.value.1, c.value.2)) && tokens.View() == c.value.0 else r == Err(c.error)
    {
      var order, back := o, 0;
      hide L.Unfreeze, L.WrappingUnfreeze;
      if order.remainedBuy == 0 {
        order := order.(status := Filled);
        if order.remainedSell != 0 {
          L.WrappingAgrees(tokens.View(), order.owner, order.owner, token, order.remainedSell);
          var _ :- tokens.DoUnfreeze(order.owner, token, order.remainedSell);
          back := order.remainedSell;
          order := order.(remainedSell := 0);
        }
        if !order.IsFinished() {
          return Err(OrderMatchOrderIsNotFinished);
        }
      }
      r := Ok((order, back));
    }

    /** Settles the incoming order with a resting one, as the runtime does, in wrapping arithmetic. */
    method SettleOrders(order: Order, o: Order, give: TokenId, have: TokenId)
      returns (r: Result<(Order, Order, Fill, nat, nat)>)
      requires 0 < o.price
      modifies tokens
      ensures var s := Settle(old(tokens.View()), give, have, order, o);
              s != Err(ArithmeticOverflow) ==>
                if s.Ok? then
                  r == Ok((s.value.taker, s.value.maker, s.value.fill, s.value.takerBack, s.value.makerBack))
                  && tokens.View() == s.value.ledger
                else r == Err(s.error)
    {
      hide CalculateExAmount, WrappingExAmount, Exchanged, Closed, Started, Deducted;
      if CalculateExAmount(o, order).Ok? {
        WrappingFillAgrees(o, order);
      } else {
        FillError(o, order);
      }
      var fill := WrappingExAmount(o, order);
      var giveQty, haveQty := GiveOf(fill, order.otype), HaveOf(fill, order.otype);
      var _ :- ExchangeFunds(order.owner, give, giveQty, o.owner, have, haveQty);
      var taker :- Deducted(Started(order), giveQty, haveQty);
      var maker :- Deducted(Started(o), haveQty, giveQty);
      var taken :- CloseIfFilled(taker, give);
      var made :- CloseIfFilled(maker, have);
      r := Ok((taken.0, made.0, fill, taken.1, made.1));
    }

    /** Takes a trade's amounts off the best level of a side and removes its finished orders. */
    method UpdateLevels(pair: PairId, price: Price, sellAmount: nat, buyAmount: nat, side: OrderType, ghost rest: nat)
      requires list.Valid() && pair in list.books && list.books[pair].Side(side) != []
      requires list.books[pair].Side(side)[0].price == price
      modifies list
      ensures list.Valid()
      ensures var b, levels := old(list.books)[pair], old(list.books)[pair].Side(side);
              list.books == old(list.books)[pair := b.WithSide(side,
                Cleaned(orders, levels[0 := Reduced(levels[0], sellAmount, buyAmount, rest)]))]
    {
      hide Cleaned, P.PriceList.Valid, Book.WithSide;
      ghost var b, levels := list.books[pair], list.books[pair].Side(side);
      ghost var reduced := levels[0 := Reduced(levels[0], sellAmount, buyAmount, rest)];
      list.UpdateReduceAmount(pair, price, sellAmount, buyAmount, side, 0, rest);
      list.RemoveOrderMatchPrice(pair, side, orders);
      WithSideTwice(b, side, reduced, Cleaned(orders, reduced));
    }

    /** One round of the matching loop: the incoming order trades with the resting order `id`. */
    method ExecuteTrade(pair: PairId, order: Order, id: OrderId) returns (r: Result<Order>)
      requires Valid() && market.executing
      requires pair in list.books && order.id in orders && orders[order.id] == order
      requires Poised(View(), pair, order.id) && MayTrade(View(), pair, order.id)
      requires Opposite(View(), pair, order.id) != []
      requires Opposite(View(), pair, order.id)[0].orders != [] && Front(View(), pair, order.id) == id
      modifies this, tokens, list, market
      ensures Valid() && market.executing
      ensures CanTrade(old(View()), pair, order.id) && View() == TradeOnce(old(View()), pair, order.id)
      ensures r.Ok? && order.id in orders && r.value == orders[order.id]
    {
      hide Poised, Crossing, Settle, Cleaned, Reduced, CanTrade, TradeOnce, Logged, M.Market.Valid, P.PriceList.Valid;
      ghost var w := View();
      ExecutionFacts(w, pair, order.id);
      CleanupIsTrade(w, pair, order.id);
      if id !in orders {
        return Err(OrderMatchGetOrderError);
      }
      var o := orders[id];
      var give, have := GiveToken(pairs[pair], order.otype), HaveToken(pairs[pair], order.otype);
      var settled := SettleOrders(order, o, give, have);
      match settled {
        case Err(e) => return Err(e);
        case Ok((taker, maker, fill, takerBack, makerBack)) =>
          var giveQty, haveQty := GiveOf(fill, order.otype), HaveOf(fill, order.otype);
          orders := orders[order.id := taker];
          orders := orders[o.id := maker];
          var recorded := market.SetTpMarketData(pair, o.price, fill.quote);
          match recorded {
            case Err(e) => return Err(e);
            case Ok(_) =>
          }
          UpdateLevels(pair, o.price, haveQty, giveQty, order.otype.Not(), makerBack);
          var trade := Trade(pair, order.id, o.id, order.otype, o.price, fill, takerBack, makerBack);
          LoggedMore(old(market.ticks), trades, M.Tick(pair, market.blockNumber, o.price, fill.quote), trade);
          trades := trades + [trade];
          r := Ok(taker);
      }
    }

    /** One round of the matching loop, and what it leaves for the next one. */
    method MatchNext(pair: PairId, order: Order, id: OrderId) returns (r: Result<Order>)
      requires Valid() && market.executing
      requires pair in list.books && order.id in orders && orders[order.id] == order
      requires Poised(View(), pair, order.id) && Crossing(View(), pair, order.id)
      requires Finishes(View(), pair, order.id)
      requires Opposite(View(), pair, order.id) != []
      requires Opposite(View(), pair, order.id)[0].orders != [] && Front(View(), pair, order.id) == id
      modifies this, tokens, list, market
      ensures Valid() && market.executing
      ensures r.Ok? && pair in list.books && order.id in orders
      ensures r.value == orders[order.id] && r.value.id == order.id
      ensures Advanced(old(View()), View(), pair, order.id) && Finishes(View(), pair, order.id)
    {
      hide Poised, Crossing, CanTrade, TradeOnce, Finishes, Advanced, Valid, Opposite;
      ghost var w := View();
      LevelStep(w, pair, order.id);
      FinishesOn(w, TradeOnce(w, pair, order.id), pair, order.id);
      r := ExecuteTrade(pair, order, id);
    }

    /** Trades with the orders of one level, oldest first, until the incoming order is filled. */
    method MatchLevel(pair: PairId, order0: Order, ids: seq<OrderId>) returns (r: Result<Order>)
      requires Valid() && market.executing
      requires pair in list.books && order0.id in orders && orders[order0.id] == order0
      requires Poised(View(), pair, order0.id) && Crossing(View(), pair, order0.id)
      requires Finishes(View(), pair, order0.id)
      requires Opposite(View(), pair, order0.id) != []
      requires ids != [] && Opposite(View(), pair, order0.id)[0].orders == ids
      modifies this, tokens, list, market
      ensures Valid() && market.executing
      ensures pair in list.books && order0.id in orders && Poised(View(), pair, order0.id)
      ensures Match(View(), pair, order0.id) == Match(old(View()), pair, order0.id)
      ensures Finishes(View(), pair, order0.id) && Progresses(old(View()), View(), pair, order0.id)
      ensures r.Ok? && r.value == orders[order0.id]
    {
      hide Poised, Crossing, Finishes, Match, Priority, Valid, Opposite, Progresses;
      StoredUnderId(View(), pair, order0.id);
      var order := order0;
      ghost var id, w0, queue := order0.id, View(), Priority(Opposite(View(), pair, order0.id));
      var k := 0;
      while k < |ids|
        invariant Valid() && market.executing && 0 <= k <= |ids|
        invariant pair in list.books && id in orders && order == orders[id] && order.id == id
        invariant Poised(View(), pair, id) && Finishes(View(), pair, id)
        invariant Match(View(), pair, id) == Match(w0, pair, id)
        invariant k < |ids| ==> Opposite(View(), pair, id) != [] && Opposite(View(), pair, id)[0].orders == ids[k..]
        invariant k < |ids| ==> Crossing(View(), pair, id)
        invariant |Priority(Opposite(View(), pair, id))| + k == |queue|
      {
        var traded := MatchNext(pair, order, ids[k]);
        match traded {
          case Err(e) => return Err(e);
          case Ok(next) => order := next;
        }
        if order.status.Filled? {
          break;
        }
        k := k + 1;
      }
      FullyProgressed(w0, View(), pair, id);
      r := Ok(order);
    }

    /** The matching loop. Returns whether the order was filled, and the order. */
    method OrderMatch(pair: PairId, order0: Order) returns (r: Result<(bool, Order)>)
      requires Valid() && market.executing
      requires order0.id in orders && orders[order0.id] == order0
      requires Poised(WithBook(View(), pair), pair, order0.id) && Finishes(WithBook(View(), pair), pair, order0.id)
      modifies this, tokens, list, market
      ensures Valid() && market.executing
      ensures View() == Match(WithBook(old(View()), pair), pair, order0.id)
      ensures r == Ok((orders[order0.id].status.Filled?, orders[order0.id]))
    {
      hide Poised, Crossing, Match, Finishes, Priority, P.PriceList.Valid, M.Market.Valid, Represents;
      var order := order0;
      var head := list.ReadHead(pair);
      ghost var id, w0 := order0.id, View();
      assert w0 == WithBook(old(View()), pair);
      StoredUnderId(w0, pair, id);
      if pair !in pairs {
        return Err(NoMatchingTradePair);
      }
      while true
        invariant Valid() && market.executing
        invariant pair in list.books && id in orders && order == orders[id] && order.id == id
        invariant head == Links.PriceItem(HeadPrev(list.books[pair]), HeadNext(list.books[pair]), None, 0, 0, [])
        invariant Poised(View(), pair, id) && Finishes(View(), pair, id)
        invariant Match(View(), pair, id) == Match(w0, pair, id)
        decreases !order.status.Filled?, |Priority(Opposite(View(), pair, id))|
      {
        MatchUnfold(View(), pair, id);
        FilledRests(View(), pair, id);
        if order.status.Filled? {
          break;
        }
        list.StoredBook(pair);
        LoopGuard(View(), pair, id, list.items[pair]);
        var itemPrice := P.NextMatchPrice(head, order.otype.Not());
        if itemPrice == EndItemPrice(order.otype) {
          break;
        }
        if itemPrice.None? {
          return Err(OrderMatchGetPriceError);
        }
        if !PriceMatched(order.price, order.otype, itemPrice.value) {
          break;
        }
        var entry := list.Entry(pair, itemPrice);
        if entry.None? {
          return Err(OrderMatchGetLinkedListItemError);
        }
        var matched := MatchLevel(pair, order, entry.value.orders);
        match matched {
          case Err(e) => return Err(e);
          case Ok(next) => order := next;
        }
        ghost var w1 := View();
        head := list.ReadHead(pair);
        assert View() == w1;
        StoredUnderId(w1, pair, id);
      }
      r := Ok((order.status.Filled?, order));
    }

    method CreateTradePair(sender: AccountId, base: TokenId, quote: TokenId, hash: PairId) returns (r: Result<()>)
      requires Valid() && market.executing && hash !in pairs
      modifies this, market
      ensures Valid() && market.executing
      ensures Performed(old(View()), Call.CreateTradePair(sender, base, quote, hash), r, View())
    {
      r := Ok(());
      hide M.Market.Valid, P.PriceList.Valid;
      :- Ensure(base != quote, BaseEqualQuote);
      :- Ensure(base in tokens.owners && quote in tokens.owners, TokenOwnerNotFound);
      :- Ensure(sender == tokens.owners[base] || sender == tokens.owners[quote], SenderNotEqualToBaseOrQuoteOwner);
      :- Ensure((base, quote) !in pairOf && (quote, base) !in pairOf, TradePairExisted);
      market.AddPair(hash);
      pairs := pairs[hash := Pair(base, quote)];
      pairOf := pairOf[(base, quote) := hash];
    }

    /** Matches a placed order, and queues what is left of it. */
    method MatchAndQueue(pair: PairId, order0: Order) returns (r: Result<()>)
      requires Valid() && market.executing
      requires order0.id in orders && orders[order0.id] == order0
      requires Poised(WithBook(View(), pair), pair, order0.id) && Finishes(WithBook(View(), pair), pair, order0.id)
      modifies this, tokens, list, market
      ensures Valid() && market.executing && r.Ok?
      ensures var w := Match(WithBook(old(View()), pair), pair, order0.id);
              View() == if w.orders[order0.id].status.Filled? then w else Enqueue(w, pair, order0.id)
    {
      hide Poised, Crossing, Match, Enqueued, P.PriceList.Valid, M.Market.Valid;
      r := Ok(());
      ghost var w := Match(WithBook(View(), pair), pair, order0.id);
      MatchStops(WithBook(View(), pair), pair, order0.id);
      var matched := OrderMatch(pair, order0);
      match matched {
        case Err(e) => return Err(e);
        case Ok((filled, order)) =>
          if !filled {
            StoredUnderId(w, pair, order0.id);
            RestedPrice(w, pair, order0.id);
            list.Append(pair, order.price, order.id, order.remainedSell, order.remainedBuy, order.otype);
          }
      }
    }

    /** `hash` is the fresh name of the new order. */
    method CreateLimitOrder(sender: AccountId, base: TokenId, quote: TokenId, otype: OrderType, price: Price,
                            sellAmount: nat, hash: OrderId) returns (r: Result<()>)
      requires Valid() && market.executing && Coherent(View(), {})
      requires Covered(View(), Call.CreateLimitOrder(sender, base, quote, otype, price, sellAmount, hash))
      modifies this, tokens, list, market
      ensures Valid() && market.executing
      ensures var c := Call.CreateLimitOrder(sender, base, quote, otype, price, sellAmount, hash);
              Performed(old(View()), c, r, View())
    {
      r := Ok(());
      hide Coherent, PairsOk, P.PriceList.Valid, M.Market.Valid, Poised, Finishes, Crossing, Match, NextError, Enqueue,
        Placeable, EnsureCounterpartyAmountBounds, L.Freeze, L.WrappingFreeze, L.EnsureFreeBalance;
      ghost var w := View();
      CoherentParts(w);
      LimitOrderPlaced(w, sender, base, quote, otype, price, sellAmount, hash);
      :- EnsureBounds(price, sellAmount);
      var buyAmount :- EnsureCounterpartyAmountBounds(otype, price, sellAmount);
      :- Ensure((base, quote) in pairOf, NoMatchingTradePair);
      var pair := pairOf[(base, quote)];
      var order := NewOrder(hash, base, quote, sender, price, sellAmount, buyAmount, otype);
      var give := if otype.Buy? then base else quote;
      var _ :- tokens.EnsureFreeBalance(sender, give, sellAmount);
      FreezeFits(w, sender, give, sellAmount);
      var _ :- tokens.DoFreeze(sender, give, sellAmount);
      orders := orders[hash := order];
      FundsFreezable(w, pair, order);
      PlacedFinishes(w, pair, order);
      PlaceKeeps(w, pair, order);
      assert WithBook(View(), pair) == Place(w, pair, order);
      r := MatchAndQueue(pair, order);
    }

    /** Takes an order out of the list. The list stays well-formed if and only if its level keeps another
        order. */
    method RemoveFromList(pair: PairId, order: Order, ghost i: nat) returns (r: Result<()>)
      requires list.Valid() && pair in list.books && QueuedAt(list.books[pair].Side(order.otype), i, order)
      modifies list
      ensures r.Ok? && pair in old(list.items) && Some(order.price) in old(list.items)[pair]
      ensures list.items == old(list.items)[pair :=
                Withdrawn(old(list.items)[pair], order.price, order.id, order.sellAmount, order.buyAmount)]
      ensures LeavesQueue(old(list.items)[pair], list.items[pair], order.price, order.id)
      ensures var b, levels := old(list.books)[pair], old(list.books)[pair].Side(order.otype);
              if Retain(levels[i].orders, order.id) != [] then
                list.Valid() &&
                list.books == old(list.books)[pair :=
                  b.WithSide(order.otype, levels[i := CanceledLevel(levels[i], order)])]
              else !list.Valid() && list.books == old(list.books)
    {
      hide Represents, Retain, WithdrawnLevel, Withdrawn, LeavesQueue;
      ghost var b, levels := list.books[pair], list.books[pair].Side(order.otype);
      ghost var given, gotten := order.sellAmount - order.remainedSell, order.buyAmount - order.remainedBuy;
      QueueStored(list.items[pair], b, order.otype, i);
      ghost var items := list.items[pair];
      WithdrawnLeaves(items, order.price, order.id, order.sellAmount, order.buyAmount);
      r := list.RemoveOrder(pair, order.price, order.id, order.sellAmount, order.buyAmount);
      if Retain(levels[i].orders, order.id) != [] {
        WithdrawRepresents(items, b, order.otype, i, order.id, order.sellAmount, order.buyAmount, given, gotten);
        list.Adopt(pair, b.WithSide(order.otype, levels[i := CanceledLevel(levels[i], order)]));
      } else {
        NotRepresented(items, b, order.otype, i, order.id, order.sellAmount, order.buyAmount);
      }
    }

    /** The checks of a cancellation. */
    method EnsureCancelable(sender: AccountId, hash: OrderId) returns (r: Result<(Order, PairId)>)
      ensures if MayCancel(View(), sender, hash) then
                r == Ok((orders[hash], pairOf[(orders[hash].base, orders[hash].quote)]))
              else r.Err? && CancelCall(View(), sender, hash) == Err(r.error)
    {
      r := Err(NoMatchingOrder);
      :- Ensure(hash in orders, NoMatchingOrder);
      var order := orders[hash];
      :- Ensure(order.owner == sender, CanOnlyCancelOwnOrder);
      :- Ensure(!order.IsFinished(), CanOnlyCancelNotFinishedOrder);
      :- Ensure((order.base, order.quote) in pairOf, NoMatchingTradePair);
      r := Ok((order, pairOf[(order.base, order.quote)]));
    }

    /** Canceling changes the order, its owner's funds and the stored list in every case; the result is the
        state machine's, with a well-formed list, if and only if the order's level keeps another order. */
    method CancelLimitOrder(sender: AccountId, hash: OrderId) returns (r: Result<()>)
      requires Valid() && market.executing && Coherent(View(), {})
      modifies this, tokens, list
      ensures market.executing
      ensures !MayCancel(old(View()), sender, hash) ==> list.items == old(list.items)
      ensures MayCancel(old(View()), sender, hash) ==>
                r.Ok? && CancelEffect(old(View()), old(list.items), old(orders)[hash], View(), list.items)
      ensures if MayCancel(old(View()), sender, hash) ==> SharesLevel(old(View()), old(orders)[hash]) then
                Valid() && Performed(old(View()), Call.CancelLimitOrder(sender, hash), r, View())
              else !Valid()
    {
      r := Ok(());
      hide Coherent, P.PriceList.Valid, M.Market.Valid, Retain, CanceledLevel, Withdrawn, L.Unfreeze,
        L.WrappingUnfreeze, QueuedAt, LevelIndex, CancelCall, Cancel, LeavesQueue;
      ghost var w := View();
      var checked :- EnsureCancelable(sender, hash);
      var (order, pair) := checked;
      CancelIs(w, sender, hash);
      var removed := RemoveFromList(pair, order, LevelIndex(w, pair, order));
      match removed {
        case Err(e) => return Err(e);
        case Ok(_) =>
      }
      order := order.(status := Canceled);
      orders := orders[hash := order];
      var sellToken := if order.otype.Buy? then order.base else order.quote;
      L.WrappingAgrees(tokens.View(), sender, sender, sellToken, order.remainedSell);
      r := tokens.DoUnfreeze(sender, sellToken, order.remainedSell);
    }

    method IssueToken(sender: AccountId, token: TokenId, totalSupply: nat) returns (r: Result<()>)
      requires Valid() && market.executing && token !in tokens.tokens
      modifies tokens
      ensures Valid() && market.executing
      ensures Performed(old(View()), Call.IssueToken(sender, token, totalSupply), r, View())
    {
      hide P.PriceList.Valid, M.Market.Valid;
      tokens.DoIssue(sender, token, totalSupply);
      r := Ok(());
    }

    method TransferToken(sender: AccountId, to: AccountId, token: TokenId, amount: nat) returns (r: Result<()>)
      requires Valid() && market.executing && Covered(View(), Call.TransferToken(sender, to, token, amount))
      modifies tokens
      ensures Valid() && market.executing
      ensures Performed(old(View()), Call.TransferToken(sender, to, token, amount), r, View())
    {
      hide P.PriceList.Valid, M.Market.Valid, L.Transfer, L.WrappingTransfer;
      L.WrappingAgrees(tokens.View(), sender, to, token, amount);
      r := tokens.Transfer(sender, to, token, amount);
    }

    /** Any covered call takes the storage to the state machine's next state. */
    method Dispatch(c: Call) returns (r: Result<()>)
      requires Valid() && market.executing && Coherent(View(), {}) && Covered(View(), c)
      modifies this, tokens, list, market
      ensures Valid() && market.executing && Coherent(View(), {})
      ensures Performed(old(View()), c, r, View()) && View() == Next(old(View()), c)
    {
      hide Coherent, Valid, Perform, Performed, Next, SharesLevel, GetsFilled, CancelEffect;
      ghost var w := View();
      NextKeeps(w, c);
      match c {
        case IssueToken(sender, token, totalSupply) =>
          r := IssueToken(sender, token, totalSupply);
        case TransferToken(sender, to, token, amount) =>
          r := TransferToken(sender, to, token, amount);
        case CreateTradePair(sender, base, quote, pair) =>
          r := CreateTradePair(sender, base, quote, pair);
        case CreateLimitOrder(sender, base, quote, otype, price, sellAmount, order) =>
          r := CreateLimitOrder(sender, base, quote, otype, price, sellAmount, order);
        case CancelLimitOrder(sender, order) =>
          r := CancelLimitOrder(sender, order);
      }
      PerformedNext(w, c, r, View());
    }

    method OnInitialize(n: nat)
      requires Valid() && !market.executing && n == market.blockNumber + 1
      modifies market
      ensures Valid() && market.executing && market.blockNumber == n && View() == old(View())
    {
      hide P.PriceList.Valid, M.Market.Valid;
      market.OnInitialize(n);
    }

    /** After a block, the volume of every pair is that of its trades in the last day, and its price range
        that of its trades in the blocks that the price vectors cover. */
    method OnFinalize()
      requires Valid() && market.executing
      modifies market
      ensures Valid() && !market.executing && market.blockNumber == old(market.blockNumber) && View() == old(View())
      ensures |BlocksOf(market.ticks)| == |trades|
      ensures var b, ticks := market.blockNumber, TicksOf(trades, BlocksOf(market.ticks));
              forall p <- pairs.Keys ::
                && p in market.tradePairs && p in market.born
                && M.VolumeIs(market.tradePairs[p].volume, M.Volume(ticks, p, M.DayStart(b), b + 1))
                && var first := b + 1 - M.CoveredBlocks(market.born[p], b);
                   && 1 <= first
                   && market.tradePairs[p].highest == M.High(ticks, p, first, b + 1)
                   && market.tradePairs[p].lowest == M.Low(ticks, p, first, b + 1)
                   && market.tradePairs[p].latest == M.LastPrice(ticks, p)
    {
      hide P.PriceList.Valid, M.Market.Valid, M.Volume, M.High, M.Low, M.DayStart, M.CoveredBlocks;
      market.OnFinalize();
    }
  }
}

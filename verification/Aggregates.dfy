/** The aggregate amounts of the levels: what the list stores of them, and when that is what the orders of
    a level together want and offer. */
module Aggregates {
  import opened Base
  import opened Words
  import opened Sums
  import opened Orders
  import opened FillMath
  import opened Ledger
  import opened Links
  import opened Books
  import opened Settlement
  import opened World
  import opened Matching
  import opened TradeInvariants
  import opened Engine
  import opened Operations
  import opened Transitions
  import opened LifeCycle

  // ---------- Which amounts are right ----------

  ghost predicate SideRight(levels: seq<Level>) {
    forall i :: 0 <= i < |levels| ==> AmountsRight(levels[i])
  }

  /** Before they are cut to a `u128`, the amounts of every level are what its orders want, and no less than
      they offer. */
  ghost predicate AllRight(w: World) {
    forall p <- w.books.Keys :: SideRight(w.books[p].bids) && SideRight(w.books[p].asks)
  }

  lemma TradedRight(w: World, w': World, p: PairId, id: OrderId, front: OrderId, f: Fill)
    requires Traded(w, w', p, id, front, f) && AllRight(w)
    ensures AllRight(w')
  {
    hide BothFilled, NotQueued, Resting;
    TradedParties(w, w', p, id, front, f);
    var side := w.orders[id].otype.Not();
    assert SideRight(w.books[p].Side(side));
    AfterRight(w.books[p].Side(side), w.orders[front], f, w'.orders[front].IsFinished());
    hide SideRight, SideAfter;
  }

  lemma AfterRight(levels: seq<Level>, m: Order, f: Fill, done: bool)
    requires levels != [] && levels[0].orders != [] && SideRight(levels)
    ensures SideRight(SideAfter(levels, m, f, done))
  {
  }

  lemma {:induction false} MatchRight(w: World, p: PairId, id: OrderId)
    requires p in w.books && id in w.orders && Poised(w, p, id) && AllRight(w)
    ensures AllRight(Match(w, p, id))
    decreases !w.orders[id].status.Filled?, |Priority(Opposite(w, p, id))|
  {
    hide Poised, TradeOnce, Crossing, CanTrade, Priority, Opposite, Traded, SameTerms, AllRight;
    MatchUnfold(w, p, id);
    if MayTrade(w, p, id) {
      TradeProgress(w, p, id);
      FrontOwner(w, p, id);
      TradeIsTraded(w, p, id);
      TradedRight(w, TradeOnce(w, p, id), p, id, Front(w, p, id), SettledFront(w, p, id).fill);
      MatchRight(TradeOnce(w, p, id), p, id);
    }
  }

  lemma EnqueueRight(w: World, p: PairId, id: OrderId)
    requires p in w.books && id in w.orders && AllRight(w)
    ensures AllRight(Enqueue(w, p, id))
  {
  }

  lemma PlaceRight(w: World, p: PairId, o: Order)
    requires AllRight(w) && Placeable(w, p, o)
    ensures AllRight(Place(w, p, o))
  {
    hide OrderOk, Freeze;
  }

  lemma MatchedRight(w: World, p: PairId, o: Order)
    requires Coherent(w, {}) && AllRight(w) && Placeable(w, p, o) && Matched(w, p, o).Ok?
    ensures AllRight(Matched(w, p, o).value)
  {
    hide Coherent, Poised, Crossing, Match, OrderOk, Freeze, Enqueue, AllRight, Place;
    PlaceKeeps(w, p, o);
    PlaceRight(w, p, o);
    MatchRight(Place(w, p, o), p, o.id);
    EnqueueRight(Match(Place(w, p, o), p, o.id), p, o.id);
  }

  lemma SideCanceledRight(levels: seq<Level>, i: nat, o: Order)
    requires SideRight(levels) && i < |levels| && OrderOk(o) && !o.IsFinished()
    ensures SideRight(levels[i := CanceledLevel(levels[i], o)]) <==> o.status.Created?
  {
    hide OrderOk, Retain;
    CreatedUntouched(o);
    var levels' := levels[i := CanceledLevel(levels[i], o)];
    assert levels'[i] == CanceledLevel(levels[i], o);
  }

  lemma BooksChanged(w: World, w': World, p: PairId, side: OrderType, levels: seq<Level>)
    requires AllRight(w) && p in w.books && w'.books == w.books[p := w.books[p].WithSide(side, levels)]
    ensures AllRight(w') <==> SideRight(levels)
  {
    hide SideRight;
    assert p in w'.books.Keys && w'.books[p].Side(side) == levels;
    assert SideRight(w.books[p].bids) && SideRight(w.books[p].asks);
  }

  /** A cancellation that goes through replaces one level, that of an unfinished order. */
  lemma CanceledBooks(w: World, sender: AccountId, id: OrderId)
    requires Coherent(w, {}) && CancelCall(w, sender, id).Ok?
    ensures id in w.orders && (w.orders[id].base, w.orders[id].quote) in w.pairOf
    ensures var o := w.orders[id];
            var p := w.pairOf[(o.base, o.quote)];
            && OrderOk(o) && !o.IsFinished() && p in w.books
            && var levels, i := w.books[p].Side(o.otype), LevelIndex(w, p, o);
               && i < |levels| && levels[i].price == o.price
               && CancelCall(w, sender, id).value.books ==
                  w.books[p := w.books[p].WithSide(o.otype, levels[i := CanceledLevel(levels[i], o)])]
  {
    hide Coherent, OrderOk, Unfreeze, LevelIndex, QueuedAt, CanceledLevel;
    CoherentParts(w);
    StoredNow(w, id);
    var o := w.orders[id];
    var p := w.pairOf[(o.base, o.quote)];
    QueuedIndex(w.books[p].Side(o.otype), LevelIndex(w, p, o), o);
  }

  /** A cancellation leaves all amounts right if and only if the canceled order was never traded. */
  lemma CancelRightExact(w: World, sender: AccountId, id: OrderId)
    requires Coherent(w, {}) && AllRight(w) && CancelCall(w, sender, id).Ok?
    ensures id in w.orders && (AllRight(CancelCall(w, sender, id).value) <==> w.orders[id].status.Created?)
  {
    hide Coherent, OrderOk, CancelCall, LevelIndex, CanceledLevel, AllRight, SideRight;
    CanceledBooks(w, sender, id);
    var o := w.orders[id];
    var p := w.pairOf[(o.base, o.quote)];
    var levels, i := w.books[p].Side(o.otype), LevelIndex(w, p, o);
    RightSide(w, p, o.otype);
    SideCanceledRight(levels, i, o);
    BooksChanged(w, CancelCall(w, sender, id).value, p, o.otype, levels[i := CanceledLevel(levels[i], o)]);
  }

  lemma RightSide(w: World, p: PairId, side: OrderType)
    requires AllRight(w) && p in w.books
    ensures SideRight(w.books[p].Side(side))
  {
  }

  lemma CreatedUntouched(o: Order)
    requires OrderOk(o) && !o.IsFinished()
    ensures o.status.Created? <==> o.remainedSell == o.sellAmount
    ensures o.status.Created? <==> o.remainedBuy == o.buyAmount
    ensures o.remainedBuy <= o.buyAmount
  {
    hide ExactAmounts, Slack;
  }

  /** A call that cancels no traded order. */
  ghost predicate Untraded(w: World, c: Call) {
    c.CancelLimitOrder? && CancelCall(w, c.sender, c.order).Ok? ==>
      c.order in w.orders && w.orders[c.order].status.Created?
  }

  ghost predicate AllUntraded(calls: seq<Call>) {
    calls == [] ||
    (AllUntraded(calls[..|calls| - 1]) && Untraded(Run(GENESIS, calls[..|calls| - 1]), calls[|calls| - 1]))
  }

  lemma NextRight(w: World, c: Call)
    requires Coherent(w, {}) && Covered(w, c) && Untraded(w, c) && AllRight(w)
    ensures AllRight(Next(w, c))
  {
    hide Coherent, SharesLevel, LimitOrderCall, CancelCall, Matched, Placeable, Admitted, OrderOf;
    if Perform(w, c).Ok? {
      match c
      case CreateLimitOrder(sender, base, quote, otype, price, sellAmount, order) =>
        hide AllRight;
        CoherentParts(w);
        LimitOrderPlaced(w, sender, base, quote, otype, price, sellAmount, order);
        MatchedRight(w, w.pairOf[(base, quote)], OrderOf(sender, base, quote, otype, price, sellAmount, order));
      case CancelLimitOrder(sender, order) =>
        hide AllRight;
        CancelUnfinished(w, sender, order);
        CancelRightExact(w, sender, order);
      case _ =>
    }
  }

  /** Over all runs in which no traded order is canceled, every level's amounts, before they are cut to a `u128`,
      are what its orders want, and no less than they offer. */
  lemma {:induction false} RunRight(calls: seq<Call>)
    requires AllCovered(GENESIS, calls) && AllUntraded(calls)
    ensures AllRight(Run(GENESIS, calls))
  {
    hide Coherent, Covered, Untraded, Perform, Next, AllRight;
    if calls == [] {
      NothingRight();
    } else {
      var before := calls[..|calls| - 1];
      RunKeeps(before);
      RunRight(before);
      NextRight(Run(GENESIS, before), calls[|calls| - 1]);
    }
  }

  lemma NothingRight()
    ensures AllRight(GENESIS)
  {
  }

  // ---------- What is stored ----------

  /** Orders that sell one token offer together no more than there is of it. */
  lemma {:induction false} OffersWithin(orders: map<OrderId, Order>, m: map<Holding, nat>, ids: seq<OrderId>,
                                        t: TokenId)
    requires forall h: Holding :: Stake(orders, h) <= Get(m, h)
    requires NoDuplicates(ids)
    requires forall id <- ids :: id in orders && !orders[id].IsFinished() && orders[id].SellToken() == t
    ensures SumSell(orders, ids) <= Total(m, t)
    decreases |ids|
  {
    if ids != [] {
      var id, rest := ids[0], ids[1..];
      var o := orders[id];
      var h := (o.owner, t);
      StakeCovers(orders, id, h);
      var orders' := orders[id := o.(status := Canceled)];
      var m' := m[h := Get(m, h) - o.remainedSell];
      forall k: Holding ensures Stake(orders', k) <= Get(m', k) {
        StakeUpdate(orders, id, orders'[id], k);
      }
      hide Stake, Total;
      TotalUpdate(m, h, Get(m, h) - o.remainedSell, t);
      assert id !in rest;
      OffersWithin(orders', m', rest, t);
      SumsSame(orders, orders', rest);
    }
  }

  /** What the bids of a level want is covered, at its price, by what they offer. */
  lemma {:induction false} WantsCovered(orders: map<OrderId, Order>, p: Pair, price: Price, ids: seq<OrderId>)
    requires forall id <- ids :: id in orders && Resting(orders[id], p, Buy, price) && OrderOk(orders[id])
    ensures SumBuy(orders, ids) * price <= SumSell(orders, ids) * PRICE_FACTOR
  {
    if ids != [] {
      WantsCovered(orders, p, price, ids[1..]);
      var o := orders[ids[0]];
      Distribute(o.remainedBuy, SumBuy(orders, ids[1..]), price);
      Distribute(o.remainedSell, SumSell(orders, ids[1..]), PRICE_FACTOR);
    }
  }

  /** What the asks of a level want is bounded, at its price, by what they offer. */
  lemma {:induction false} AskWantsCovered(orders: map<OrderId, Order>, p: Pair, price: Price, ids: seq<OrderId>)
    requires forall id <- ids :: id in orders && Resting(orders[id], p, Sell, price) && OrderOk(orders[id])
    ensures SumBuy(orders, ids) * PRICE_FACTOR <= SumSell(orders, ids) * price
  {
    if ids != [] {
      AskWantsCovered(orders, p, price, ids[1..]);
      var o := orders[ids[0]];
      Distribute(o.remainedBuy, SumBuy(orders, ids[1..]), PRICE_FACTOR);
      Distribute(o.remainedSell, SumSell(orders, ids[1..]), price);
    }
  }

  lemma Distribute(a: nat, b: nat, c: nat)
    ensures (a + b) * c == a * c + b * c
  {
  }

  lemma BackedWithin(w: World)
    requires Backed(w) && Orderly(w.ledger)
    ensures forall h: Holding :: Stake(w.orders, h) <= Get(w.ledger.balance, h)
  {
  }

  lemma SupplyOf(l: Ledger, t: TokenId)
    requires Sound(l) && t in l.supply
    ensures Total(l.balance, t) == l.supply[t] <= U128_MAX
  {
  }

  function OfferedToken(p: Pair, side: OrderType): TokenId {
    if side.Buy? then p.base else p.quote
  }

  lemma PairFacts(w: World, p: PairId)
    requires p in w.pairs && PairOk(w, p)
    ensures forall side :: OfferedToken(w.pairs[p], side) in w.ledger.supply
  {
  }

  /** What the amounts of levels rely on, between calls and while an order is matched. */
  ghost predicate Standing(w: World) {
    Sound(w.ledger) && PairsOk(w) && OrdersOk(w) && Backed(w) && BooksOk(w)
  }

  lemma InvStanding(w: World)
    requires Inv(w)
    ensures Standing(w)
  {
    hide Sound, Orderly, PairsOk, OrdersOk, Backed, BooksOk, Listed, TradesOk;
  }

  /** The orders of a level offer together no more than the supply of their token. */
  lemma OffersFit(w: World, p: PairId, side: OrderType, i: nat)
    requires Standing(w) && p in w.books && i < |w.books[p].Side(side)|
    ensures p in w.pairs && OfferedToken(w.pairs[p], side) in w.ledger.supply
    ensures var l := w.books[p].Side(side)[i];
            && (forall id <- l.orders ::
                  id in w.orders && Resting(w.orders[id], w.pairs[p], side, l.price) && OrderOk(w.orders[id]))
            && SumSell(w.orders, l.orders) <= w.ledger.supply[OfferedToken(w.pairs[p], side)] <= U128_MAX
  {
    hide Orderly, Conserved, OrdersOk, PairsOk, Backed, BooksOk, OrderOk, Stake, Total, PairOk;
    LevelNow(w, p, side, i);
    PairKnown(w, p);
    PairFacts(w, p);
    var l, t := w.books[p].Side(side)[i], OfferedToken(w.pairs[p], side);
    forall id <- l.orders ensures id in w.orders && OrderOk(w.orders[id]) {
      StoredNow(w, id);
    }
    BackedWithin(w);
    OffersWithin(w.orders, w.ledger.balance, l.orders, t);
    SupplyOf(w.ledger, t);
  }

  /** What is stored of a level's amounts is what its orders want and offer, up to what the level has on
      record, modulo 2^128. So the stored sell amount is what they offer exactly if what filled orders did
      not need and what canceled orders had given cancel out, and the stored buy amount is what they want
      exactly if that is a `u128` and no canceled order had gotten anything. */
  lemma StoredExact(w: World, p: PairId, side: OrderType, i: nat)
    requires Standing(w) && p in w.books && i < |w.books[p].Side(side)|
    ensures var l := w.books[p].Side(side)[i];
            && (forall id <- l.orders :: id in w.orders)
            && NodeOf(l).buyAmount == (SumBuy(w.orders, l.orders) - l.shortBuy) % TWO_TO_128
            && NodeOf(l).sellAmount == (SumSell(w.orders, l.orders) + l.extraSell) % TWO_TO_128
            && (NodeOf(l).sellAmount == SumSell(w.orders, l.orders) <==> l.extraSell % TWO_TO_128 == 0)
            && (NodeOf(l).buyAmount == SumBuy(w.orders, l.orders)
                <==> SumBuy(w.orders, l.orders) <= U128_MAX && l.shortBuy % TWO_TO_128 == 0)
  {
    hide Sound, PairsOk, OrdersOk, Backed, BooksOk, LevelOk, OrderOk, Resting;
    OffersFit(w, p, side, i);
    LevelNow(w, p, side, i);
    var l := w.books[p].Side(side)[i];
    LevelAmounts(w.orders, w.pairs[p], side, l);
    WrapIsRemainder(l.buy);
    WrapIsRemainder(l.sell);
    ShiftExact(SumSell(w.orders, l.orders), l.extraSell);
    ShiftExact(SumBuy(w.orders, l.orders), -l.shortBuy);
  }

  lemma LevelAmounts(orders: map<OrderId, Order>, p: Pair, side: OrderType, l: Level)
    requires LevelOk(orders, p, side, l)
    ensures forall id <- l.orders :: id in orders
    ensures l.buy == SumBuy(orders, l.orders) - l.shortBuy && l.sell == SumSell(orders, l.orders) + l.extraSell
    ensures 0 <= l.shortBuy
  {
  }

  lemma ShiftExact(x: nat, d: int)
    ensures (x + d) % TWO_TO_128 == x <==> x <= U128_MAX && d % TWO_TO_128 == 0
    ensures (-d) % TWO_TO_128 == 0 <==> d % TWO_TO_128 == 0
  {
  }

  /** Where no traded order was canceled, what a bid level of a capped pair stores as wanted is the exact sum. */
  lemma BidAmountsExact(w: World, p: PairId, i: nat)
    requires Standing(w) && Capped(w, p) && p in w.books && i < |w.books[p].bids| && AmountsRight(w.books[p].bids[i])
    ensures var l := w.books[p].bids[i];
            && (forall id <- l.orders :: id in w.orders)
            && NodeOf(l).buyAmount == SumBuy(w.orders, l.orders) == l.buy <= U128_MAX
  {
    hide Sound, PairsOk, OrdersOk, Backed, BooksOk, OrderOk, PairOk, LevelOk, NodeOf, SumBuy, SumSell;
    OffersFit(w, p, Buy, i);
    StoredExact(w, p, Buy, i);
    PairKnown(w, p);
    PairFacts(w, p);
    var l := w.books[p].bids[i];
    CappedProduct(w, p, SumSell(w.orders, l.orders));
    LevelNow(w, p, Buy, i);
    QueueNotEmpty(w.orders, w.pairs[p], Buy, l);
    BidWants(w.orders, w.pairs[p], l.price, l.orders);
    LevelAmounts(w.orders, w.pairs[p], Buy, l);
  }

  lemma QueueNotEmpty(orders: map<OrderId, Order>, p: Pair, side: OrderType, l: Level)
    requires LevelOk(orders, p, side, l)
    ensures l.orders != []
  {
  }

  lemma BidWants(orders: map<OrderId, Order>, p: Pair, price: Price, ids: seq<OrderId>)
    requires forall id <- ids :: id in orders && Resting(orders[id], p, Buy, price) && OrderOk(orders[id])
    requires ids != []
    ensures SumBuy(orders, ids) <= SumSell(orders, ids) * PRICE_FACTOR
  {
    WantsCovered(orders, p, price, ids);
    PricePositive(orders[ids[0]]);
    hide SumBuy, SumSell, OrderOk;
    MulMono(1, price, SumBuy(orders, ids));
  }

  /** What an ask level wants is at most the supply of the quote token at its price. Where no traded order
      was canceled, what the level stores as wanted is therefore the exact sum if that is a `u128`. */
  lemma AskAmountsExact(w: World, p: PairId, i: nat)
    requires Standing(w) && p in w.books && i < |w.books[p].asks| && AmountsRight(w.books[p].asks[i])
    ensures p in w.pairs && w.pairs[p].quote in w.ledger.supply
    ensures var l, supply := w.books[p].asks[i], w.ledger.supply[w.pairs[p].quote];
            && (forall id <- l.orders :: id in w.orders)
            && SumBuy(w.orders, l.orders) * PRICE_FACTOR <= supply * l.price
            && (NodeOf(l).buyAmount == SumBuy(w.orders, l.orders) <==> SumBuy(w.orders, l.orders) <= U128_MAX)
            && (supply * l.price <= U128_MAX * PRICE_FACTOR ==>
                  NodeOf(l).buyAmount == SumBuy(w.orders, l.orders) <= U128_MAX)
  {
    hide Sound, PairsOk, OrdersOk, Backed, BooksOk, OrderOk, LevelOk;
    OffersFit(w, p, Sell, i);
    var l := w.books[p].asks[i];
    AskWantsCovered(w.orders, w.pairs[p], l.price, l.orders);
    MulMono(SumSell(w.orders, l.orders), w.ledger.supply[w.pairs[p].quote], l.price);
    StoredExact(w, p, Sell, i);
    if w.ledger.supply[w.pairs[p].quote] * l.price <= U128_MAX * PRICE_FACTOR {
      CancelFactor(SumBuy(w.orders, l.orders), U128_MAX, PRICE_FACTOR);
    }
  }

  lemma CancelFactor(a: nat, b: nat, c: nat)
    requires 0 < c && a * c <= b * c
    ensures a <= b
  {
    if b < a {
      MulMono(b + 1, a, c);
    }
  }

  /** Queueing an order adds its amounts to the stored ones exactly if the sums are `u128`. */
  lemma PushedExact(item: PriceItem, id: OrderId, sell: nat, buy: nat)
    requires item.buyAmount <= U128_MAX && item.sellAmount <= U128_MAX && sell <= U128_MAX && buy <= U128_MAX
    ensures Pushed(item, id, sell, buy).buyAmount == item.buyAmount + buy <==> item.buyAmount + buy <= U128_MAX
    ensures Pushed(item, id, sell, buy).sellAmount == item.sellAmount + sell <==> item.sellAmount + sell <= U128_MAX
  {
    WrapIsRemainder(item.buyAmount + buy);
    WrapIsRemainder(item.sellAmount + sell);
    hide Wrap;
  }
}

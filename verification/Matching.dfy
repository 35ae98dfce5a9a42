/** The reference matcher: an incoming order trades with the first order of the best opposite level,
    one trade at a time, for as long as it is unfilled and the best opposite price suits it. */
module Matching {
  import opened Base
  import opened Sums
  import opened Orders
  import opened Ledger
  import opened Books
  import opened Settlement
  import opened World

  /** The levels that an order of the book of pair `p` matches against. */
  function Opposite(w: World, p: PairId, id: OrderId): seq<Level>
    requires p in w.books && id in w.orders
  {
    w.books[p].Side(w.orders[id].otype.Not())
  }

  predicate Crossing(w: World, p: PairId, id: OrderId)
    requires p in w.books && id in w.orders
  {
    && !w.orders[id].status.Filled?
    && Opposite(w, p, id) != []
    && PriceMatched(w.orders[id].price, w.orders[id].otype, Opposite(w, p, id)[0].price)
  }

  /** The levels after a trade with the front order, which is removed if it is `done`, and of whose
      offer `rest` was not needed. */
  function LevelsAfter(levels: seq<Level>, give: nat, have: nat, rest: nat, done: bool): seq<Level>
    requires levels != [] && levels[0].orders != []
  {
    var l := Reduced(levels[0], have, give, rest);
    if !done then levels[0 := l]
    else if |l.orders| == 1 then levels[1..]
    else levels[0 := l.(orders := l.orders[1..])]
  }

  /** The front order of the best opposite level can be settled with the incoming order. */
  predicate CanTrade(w: World, p: PairId, id: OrderId) {
    && p in w.books && id in w.orders && Opposite(w, p, id) != []
    && var l := Opposite(w, p, id)[0];
       && l.orders != [] && l.orders[0] in w.orders && 0 < w.orders[l.orders[0]].price
       && var taker, maker := w.orders[id], w.orders[l.orders[0]];
          Settle(w.ledger, taker.SellToken(), maker.SellToken(), taker, maker).Ok?
  }

  function Front(w: World, p: PairId, id: OrderId): OrderId
    requires p in w.books && id in w.orders && Opposite(w, p, id) != [] && Opposite(w, p, id)[0].orders != []
  {
    Opposite(w, p, id)[0].orders[0]
  }

  function SettledFront(w: World, p: PairId, id: OrderId): Settled
    requires CanTrade(w, p, id)
  {
    var taker, maker := w.orders[id], w.orders[Front(w, p, id)];
    Settle(w.ledger, taker.SellToken(), maker.SellToken(), taker, maker).value
  }

  /** The world after a trade `s` of order `id` with the front order of the best opposite level. */
  function AfterTrade(w: World, p: PairId, id: OrderId, s: Settled): World
    requires p in w.books && id in w.orders && Opposite(w, p, id) != [] && Opposite(w, p, id)[0].orders != []
    requires Front(w, p, id) in w.orders
  {
    var taker, front := w.orders[id], Front(w, p, id);
    var give, have := GiveOf(s.fill, taker.otype), HaveOf(s.fill, taker.otype);
    var levels := LevelsAfter(Opposite(w, p, id), give, have, s.makerBack, s.maker.IsFinished());
    w.(ledger := s.ledger,
       orders := w.orders[id := s.taker][front := s.maker],
       books := w.books[p := w.books[p].WithSide(taker.otype.Not(), levels)],
       trades := w.trades + [Trade(p, id, front, taker.otype, w.orders[front].price, s.fill, s.takerBack, s.makerBack)])
  }

  function TradeOnce(w: World, p: PairId, id: OrderId): World
    requires CanTrade(w, p, id)
  {
    AfterTrade(w, p, id, SettledFront(w, p, id))
  }

  // ---------- When an order is ready to be matched ----------

  /** A trade that fills the incoming order, or takes another one out of its way. */
  predicate Progresses(w: World, w': World, p: PairId, id: OrderId)
    requires p in w.books && id in w.orders
  {
    && p in w'.books && id in w'.orders
    && (w'.orders[id].status.Filled? || |Priority(Opposite(w', p, id))| < |Priority(Opposite(w, p, id))|)
  }

  // ---------- When an order can be matched ----------

  ghost predicate NotQueued(levels: seq<Level>, id: OrderId) {
    forall i :: 0 <= i < |levels| ==> id !in levels[i].orders
  }

  /** An order that stands between the ledger, where its funds are frozen, and the book. */
  ghost predicate Poised(w: World, p: PairId, id: OrderId) {
    && Coherent(w, {id})
    && p in w.pairs && p in w.books && id in w.orders
    && var o := w.orders[id];
       && !o.status.Canceled?
       && o.base == w.pairs[p].base && o.quote == w.pairs[p].quote
       && NotQueued(w.books[p].Side(o.otype), id)
  }

  /** The next order that an incoming one would trade with has another owner. */
  ghost predicate MeetsAnother(w: World, p: PairId, id: OrderId)
    requires p in w.books && id in w.orders
  {
    Opposite(w, p, id) != [] && Opposite(w, p, id)[0].orders != [] && Front(w, p, id) in w.orders ==>
      w.orders[Front(w, p, id)].owner != w.orders[id].owner
  }

  /** Whoever an order trades with until it rests, it is somebody else. */
  ghost predicate MeetsOthers(w: World, p: PairId, id: OrderId)
    requires p in w.books && id in w.orders
    decreases !w.orders[id].status.Filled?, |Priority(Opposite(w, p, id))|
  {
    Crossing(w, p, id) ==>
      && MeetsAnother(w, p, id)
      && (CanTrade(w, p, id) && Progresses(w, TradeOnce(w, p, id), p, id) ==> MeetsOthers(TradeOnce(w, p, id), p, id))
  }

  /** The supply of a pair's base token leaves room for the products of the fill arithmetic. */
  predicate Capped(w: World, p: PairId) {
    && p in w.pairs && w.pairs[p].base in w.ledger.supply
    && w.ledger.supply[w.pairs[p].base] * PRICE_FACTOR <= U128_MAX
  }

  /** An order whose matching will meet with no obstacle. */
  ghost predicate Ready(w: World, p: PairId, id: OrderId) {
    Poised(w, p, id) && Sound(w.ledger) && MeetsOthers(w, p, id) && Capped(w, p)
  }

  // ---------- One trade ----------

  lemma PoisedOrder(w: World, p: PairId, id: OrderId)
    requires p in w.books && id in w.orders && Poised(w, p, id)
    ensures var o := w.orders[id];
            && p in w.pairs && w.pairs[p] == Pair(o.base, o.quote)
            && OrderOk(o) && !o.status.Canceled? && NotQueued(w.books[p].Side(o.otype), id)
    ensures Orderly(w.ledger)
    ensures PairsOk(w) && OrdersOk(w) && Backed(w) && BooksOk(w) && Listed(w, {id}) && TradesOk(w)
  {
    hide Orderly, PairsOk, Backed, BooksOk, Listed, TradesOk, OrderOk, NotQueued;
    assert StoredOk(w, id);
  }

  /** The incoming order and the order that it is about to trade with. */
  lemma FrontFacts(w: World, p: PairId, id: OrderId)
    requires Poised(w, p, id) && Crossing(w, p, id)
    ensures var l := Opposite(w, p, id)[0];
            && l.orders != [] && Front(w, p, id) in w.orders && Front(w, p, id) != id
            && LevelOk(w.orders, w.pairs[p], w.orders[id].otype.Not(), l)
            && Resting(w.orders[Front(w, p, id)], w.pairs[p], w.orders[id].otype.Not(), l.price)
            && StoredOk(w, id) && StoredOk(w, Front(w, p, id))
            && !w.orders[id].IsFinished()
  {
    hide Orderly, PairsOk, Backed, Listed, TradesOk, StoredOk, LevelOk;
    var o := w.orders[id];
    assert BookOk(w.orders, w.pairs[p], w.books[p]);
    assert StoredOk(w, id);
    FrontOf(w.orders, w.pairs[p], o.otype.Not(), Opposite(w, p, id)[0]);
    assert OrderOk(o) by { StoredIsOk(w, id); }
  }

  lemma StoredIsOk(w: World, id: OrderId)
    requires id in w.orders && StoredOk(w, id)
    ensures OrderOk(w.orders[id])
  {
  }

  lemma FrontOf(orders: map<OrderId, Order>, p: Pair, side: OrderType, l: Level)
    requires LevelOk(orders, p, side, l)
    ensures l.orders != [] && l.orders[0] in l.orders && l.orders[0] in orders
    ensures Resting(orders[l.orders[0]], p, side, l.price)
  {
  }

  /** An unfinished order's remaining offer is frozen. */
  lemma OrderBacked(w: World, id: OrderId)
    requires Backed(w) && id in w.orders && StoredOk(w, id) && !w.orders[id].IsFinished()
    ensures var o := w.orders[id]; Funded(w.ledger, o.owner, o.SellToken(), o.remainedSell)
  {
    var o := w.orders[id];
    var h := (o.owner, o.SellToken());
    StakeCovers(w.orders, id, h);
    hide OrderOk, Stake;
    assert Get(w.ledger.frozen, h) == Stake(w.orders, h);
  }

  /** In a sound ledger it is no more than the supply of its token. */
  lemma OrderFunded(w: World, id: OrderId)
    requires Sound(w.ledger) && Backed(w)
    requires id in w.orders && StoredOk(w, id) && !w.orders[id].IsFinished()
    ensures var o := w.orders[id];
            && Funded(w.ledger, o.owner, o.SellToken(), o.remainedSell)
            && o.remainedSell <= w.ledger.supply[o.SellToken()]
  {
    var o := w.orders[id];
    var h := (o.owner, o.SellToken());
    OrderBacked(w, id);
    WithinSupply(w.ledger, o.owner, o.owner, o.SellToken());
    hide Total, Conserved, TokensKnown, OrderOk, Stake;
    assert Get(w.ledger.balance, h) == Get(w.ledger.free, h) + Get(w.ledger.frozen, h);
  }

  lemma CappedProduct(w: World, p: PairId, amount: nat)
    requires Capped(w, p) && amount <= w.ledger.supply[w.pairs[p].base]
    ensures amount * PRICE_FACTOR <= U128_MAX
  {
  }

  lemma PairKnown(w: World, p: PairId)
    requires PairsOk(w) && p in w.pairs
    ensures PairOk(w, p)
  {
  }

  /** The next trade is one between tradable orders that give different tokens. */
  lemma NextTradable(w: World, p: PairId, id: OrderId)
    requires p in w.books && id in w.orders && Poised(w, p, id) && Crossing(w, p, id)
    ensures Opposite(w, p, id) != [] && Opposite(w, p, id)[0].orders != [] && Front(w, p, id) in w.orders
    ensures var taker, maker := w.orders[id], w.orders[Front(w, p, id)];
            && Tradable(taker, maker) && 0 < maker.price && taker.SellToken() != maker.SellToken()
            && taker.SellToken() in w.ledger.supply
  {
    hide Poised, Orderly, OrdersOk, Backed, BooksOk, Listed, TradesOk, LevelOk, NotQueued, OrderOk;
    PoisedOrder(w, p, id);
    FrontFacts(w, p, id);
    PairKnown(w, p);
    PricePositive(w.orders[Front(w, p, id)]);
  }

  lemma PricePositive(o: Order)
    requires OrderOk(o)
    ensures 0 < o.price
  {
  }

  /** No product of the next trade's fill leaves `u128`, and neither do the balances that it credits. */
  predicate TradeFits(w: World, p: PairId, id: OrderId)
    requires p in w.books && id in w.orders
  {
    && Opposite(w, p, id) != [] && Opposite(w, p, id)[0].orders != []
    && Front(w, p, id) in w.orders && 0 < w.orders[Front(w, p, id)].price
    && var taker, maker := w.orders[id], w.orders[Front(w, p, id)];
       SettleFits(w.ledger, taker.SellToken(), maker.SellToken(), taker, maker)
  }

  /** A due trade, whoever its parties are, goes through if and only if its products and the two balances that
      it credits are `u128`. It fails for no other reason: everything else that is checked holds. */
  lemma TradeExact(w: World, p: PairId, id: OrderId)
    requires p in w.books && id in w.orders && Poised(w, p, id) && Crossing(w, p, id)
    ensures CanTrade(w, p, id) <==> TradeFits(w, p, id)
    ensures !CanTrade(w, p, id) ==> NextError(w, p, id) == ArithmeticOverflow
  {
    hide Poised, Crossing, Settle, Orderly, LevelOk, StoredOk, Tradable, SettleFits, Funded;
    PoisedOrder(w, p, id);
    FrontFacts(w, p, id);
    NextTradable(w, p, id);
    var taker, maker := w.orders[id], w.orders[Front(w, p, id)];
    OrderBacked(w, id);
    OrderBacked(w, Front(w, p, id));
    SettleExact(w.ledger, taker.SellToken(), maker.SellToken(), taker, maker);
  }

  /** The error of the next trade, if it fails. */
  function NextError(w: World, p: PairId, id: OrderId): Error
    requires p in w.books && id in w.orders
  {
    var levels := Opposite(w, p, id);
    if levels == [] || levels[0].orders == [] || levels[0].orders[0] !in w.orders then OrderMatchGetOrderError else
      var taker, maker := w.orders[id], w.orders[levels[0].orders[0]];
      if maker.price == 0 then OrderMatchGetOrderError else
        var s := Settle(w.ledger, taker.SellToken(), maker.SellToken(), taker, maker);
        if s.Err? then s.error else OrderMatchGetOrderError
  }

  /** In a sound ledger, the next trade with somebody else meets every requirement of a settlement. */
  lemma TradeSettleable(w: World, p: PairId, id: OrderId)
    requires p in w.books && id in w.orders && Poised(w, p, id) && Crossing(w, p, id)
    requires Sound(w.ledger) && MeetsAnother(w, p, id)
    ensures Opposite(w, p, id) != [] && Opposite(w, p, id)[0].orders != [] && Front(w, p, id) in w.orders
    ensures p in w.pairs && w.pairs[p].base in w.ledger.supply
    ensures var taker, maker := w.orders[id], w.orders[Front(w, p, id)];
            && Settleable(w.ledger, taker.SellToken(), maker.SellToken(), taker, maker)
            && BuyerOf(taker, maker).remainedSell <= w.ledger.supply[w.pairs[p].base]
  {
    hide Poised, Sound, PairsOk, OrdersOk, Backed, BooksOk, Listed, TradesOk, LevelOk, NotQueued, OrderOk, Funded,
      Tradable;
    PoisedOrder(w, p, id);
    FrontFacts(w, p, id);
    NextTradable(w, p, id);
    PairKnown(w, p);
    OrderFunded(w, id);
    OrderFunded(w, Front(w, p, id));
  }

  /** In a sound ledger the next trade, if it is with somebody else, can be carried out unless the first product
      of its fill leaves `u128`. */
  lemma AnotherExact(w: World, p: PairId, id: OrderId)
    requires p in w.books && id in w.orders && Poised(w, p, id) && Crossing(w, p, id)
    requires Sound(w.ledger) && MeetsAnother(w, p, id)
    ensures Opposite(w, p, id) != [] && Opposite(w, p, id)[0].orders != [] && Front(w, p, id) in w.orders
    ensures CanTrade(w, p, id) <==> FirstProduct(w.orders[id], w.orders[Front(w, p, id)]) <= U128_MAX
  {
    hide Poised, Crossing, Settleable, Settle, Sound, FirstProduct;
    FrontFacts(w, p, id);
    NextTradable(w, p, id);
    var taker, maker := w.orders[id], w.orders[Front(w, p, id)];
    TradeSettleable(w, p, id);
    SettleSafe(w.ledger, taker.SellToken(), maker.SellToken(), taker, maker);
  }

  /** Matching never fails: in a sound ledger, the next trade with somebody else, of a pair whose base token
      is capped, can be carried out. */
  lemma NeverFails(w: World, p: PairId, id: OrderId)
    requires Poised(w, p, id) && Crossing(w, p, id)
    requires Sound(w.ledger) && MeetsAnother(w, p, id) && Capped(w, p)
    ensures CanTrade(w, p, id)
  {
    assert p in w.books && id in w.orders;
    hide Poised, Crossing, CanTrade, Settleable, Sound, FirstProduct, Tradable, LevelOk, StoredOk;
    NextTradable(w, p, id);
    TradeSettleable(w, p, id);
    AnotherExact(w, p, id);
    var taker, maker := w.orders[id], w.orders[Front(w, p, id)];
    CappedProduct(w, p, BuyerOf(taker, maker).remainedSell);
    FirstProductBounded(taker, maker);
  }
}

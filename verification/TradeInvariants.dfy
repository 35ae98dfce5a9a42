/** One trade keeps every part of the exchange's invariant. */
module TradeInvariants {
  import opened Base
  import opened Sums
  import opened Orders
  import opened FillMath
  import opened Ledger
  import opened Books
  import opened Settlement
  import opened World
  import opened Matching

  /** `after` is `before` with two distinct unfinished orders filled against each other. */
  ghost predicate BothFilled(before: map<OrderId, Order>, after: map<OrderId, Order>, id: OrderId, front: OrderId,
                             f: Fill)
  {
    && id in before && front in before && id != front
    && !before[id].IsFinished() && !before[front].IsFinished()
    && FillFits(f, before[id], before[front])
    && var t, m := before[id], before[front];
       after == before[id := AfterFill(t, GiveOf(f, t.otype), HaveOf(f, t.otype))]
                      [front := AfterFill(m, GiveOf(f, m.otype), HaveOf(f, m.otype))]
  }

  /** The levels after a fill of the front order, `m`, which is removed if it is `done`. */
  function SideAfter(levels: seq<Level>, m: Order, f: Fill, done: bool): seq<Level>
    requires levels != [] && levels[0].orders != []
  {
    var give, have := GiveOf(f, m.otype), HaveOf(f, m.otype);
    LevelsAfter(levels, have, give, RestOf(m, give, have), done)
  }

  /** Filling an order leaves its terms alone. */
  predicate SameTerms(o: Order, o': Order) {
    && o'.id == o.id && o'.base == o.base && o'.quote == o.quote && o'.owner == o.owner && o'.price == o.price
    && o'.otype == o.otype && o'.sellAmount == o.sellAmount && o'.buyAmount == o.buyAmount
  }

  // ---------- Backing ----------

  lemma StakeAfterFill(o: Order, give: nat, have: nat, h: Holding)
    requires !o.IsFinished() && give <= o.remainedSell && have <= o.remainedBuy
    ensures SameTerms(o, AfterFill(o, give, have))
    ensures StakeOf(o, h) - StakeOf(AfterFill(o, give, have), h) ==
            if h == (o.owner, o.SellToken()) then o.remainedSell - AfterFill(o, give, have).remainedSell else 0
  {
  }

  /** What a trade takes out of frozen is what the orders no longer offer. */
  lemma StakeAfterTrade(before: map<OrderId, Order>, after: map<OrderId, Order>, id: OrderId, front: OrderId, f: Fill,
                        h: Holding)
    requires BothFilled(before, after, id, front, f)
    ensures var t, m := before[id], before[front];
            Stake(after, h) == Stake(before, h)
              - (if h == (t.owner, t.SellToken()) then t.remainedSell - after[id].remainedSell else 0)
              - (if h == (m.owner, m.SellToken()) then m.remainedSell - after[front].remainedSell else 0)
  {
    hide Stake, OrderOk, StakeOf, AfterFill;
    var t, m := before[id], before[front];
    StakeUpdate(before, id, after[id], h);
    StakeUpdate(before[id := after[id]], front, after[front], h);
    StakeAfterFill(t, GiveOf(f, t.otype), HaveOf(f, t.otype), h);
    StakeAfterFill(m, GiveOf(f, m.otype), HaveOf(f, m.otype), h);
  }

  // ---------- Books ----------

  lemma {:induction false} SumsSame(before: map<OrderId, Order>, after: map<OrderId, Order>, ids: seq<OrderId>)
    requires forall i <- ids :: i in before && i in after && after[i] == before[i]
    ensures SumBuy(after, ids) == SumBuy(before, ids) && SumSell(after, ids) == SumSell(before, ids)
  {
    if ids != [] {
      SumsSame(before, after, ids[1..]);
    }
  }

  lemma LevelSame(before: map<OrderId, Order>, after: map<OrderId, Order>, p: Pair, side: OrderType, l: Level)
    requires LevelOk(before, p, side, l)
    requires forall i <- l.orders :: i in after && after[i] == before[i]
    ensures LevelOk(after, p, side, l)
  {
    SumsSame(before, after, l.orders);
  }

  /** Levels without the two traded orders stay as they are. */
  lemma SideSame(before: map<OrderId, Order>, after: map<OrderId, Order>, id: OrderId, front: OrderId, f: Fill,
                 p: Pair, side: OrderType, levels: seq<Level>)
    requires BothFilled(before, after, id, front, f)
    requires SideOk(before, p, side, levels)
    requires NotQueued(levels, id) && NotQueued(levels, front)
    ensures SideOk(after, p, side, levels)
  {
    hide LevelOk, FillFits, AfterFill;
    forall i | 0 <= i < |levels| ensures LevelOk(after, p, side, levels[i]) {
      assert forall k <- levels[i].orders :: k in before by { QueuedStored(before, p, side, levels[i]); }
      LevelSame(before, after, p, side, levels[i]);
    }
  }

  lemma QueuedStored(orders: map<OrderId, Order>, p: Pair, side: OrderType, l: Level)
    requires LevelOk(orders, p, side, l)
    ensures forall id <- l.orders :: id in orders && Resting(orders[id], p, side, l.price)
  {
  }

  /** An order that does not rest on a side is in none of its queues. */
  lemma NotOnSide(orders: map<OrderId, Order>, p: Pair, side: OrderType, levels: seq<Level>, o: OrderId)
    requires SideOk(orders, p, side, levels)
    requires o !in orders || (forall price :: !Resting(orders[o], p, side, price))
    ensures NotQueued(levels, o)
  {
  }

  lemma FrontSums(before: map<OrderId, Order>, after: map<OrderId, Order>, ids: seq<OrderId>, front: OrderId)
    requires ids != [] && ids[0] == front && NoDuplicates(ids) && front in before && front in after
    requires forall x <- ids :: x in before && x in after && (x != front ==> after[x] == before[x])
    ensures forall x <- ids[1..] :: x in after && x in ids
    ensures SumBuy(before, ids) == before[front].remainedBuy + SumBuy(after, ids[1..])
    ensures SumSell(before, ids) == before[front].remainedSell + SumSell(after, ids[1..])
    ensures SumBuy(after, ids) == after[front].remainedBuy + SumBuy(after, ids[1..])
    ensures SumSell(after, ids) == after[front].remainedSell + SumSell(after, ids[1..])
  {
    assert forall x <- ids[1..] :: x in ids && x != front;
    SumsSame(before, after, ids[1..]);
  }

  lemma OthersKept(before: map<OrderId, Order>, after: map<OrderId, Order>, id: OrderId, front: OrderId, f: Fill,
                   ids: seq<OrderId>)
    requires BothFilled(before, after, id, front, f) && id !in ids && forall x <- ids :: x in before
    ensures forall x <- ids :: x in after && (x != front ==> after[x] == before[x])
  {
    hide FillFits, AfterFill;
  }

  /** The front level after a trade that fills the taker or the front order. */
  lemma FrontLevelKept(before: map<OrderId, Order>, after: map<OrderId, Order>, id: OrderId, front: OrderId, f: Fill,
                       p: Pair, side: OrderType, l: Level)
    requires BothFilled(before, after, id, front, f)
    requires LevelOk(before, p, side, l) && l.orders[0] == front && id !in l.orders
    requires before[front].otype == side
    ensures var m := before[front];
            var l' := Reduced(l, GiveOf(f, side), HaveOf(f, side), RestOf(m, GiveOf(f, side), HaveOf(f, side)));
            && (!after[front].IsFinished() ==> LevelOk(after, p, side, l'))
            && (after[front].IsFinished() && |l.orders| > 1 ==> LevelOk(after, p, side, l'.(orders := l.orders[1..])))
  {
    hide OrderOk, SumBuy, SumSell;
    OthersKept(before, after, id, front, f, l.orders);
    FrontSums(before, after, l.orders, front);
  }

  /** Behind the front level of a sorted side there is no order at its price. */
  lemma NotBehindFront(orders: map<OrderId, Order>, p: Pair, side: OrderType, levels: seq<Level>)
    requires levels != [] && SideOk(orders, p, side, levels) && SideSorted(side, levels)
    requires levels[0].orders != []
    ensures NotQueued(levels[1..], levels[0].orders[0])
  {
  }

  /** The opposite side after a trade. */
  lemma OppositeKept(before: map<OrderId, Order>, after: map<OrderId, Order>, id: OrderId, front: OrderId, f: Fill,
                     p: Pair, side: OrderType, levels: seq<Level>)
    requires BothFilled(before, after, id, front, f)
    requires levels != [] && SideOk(before, p, side, levels) && SideSorted(side, levels)
    requires levels[0].orders != [] && levels[0].orders[0] == front
    requires before[front].otype == side && NotQueued(levels, id)
    ensures SideOk(after, p, side, SideAfter(levels, before[front], f, after[front].IsFinished()))
  {
    assert front in after;
    hide LevelOk, BothFilled, SideSorted, FillFits;
    NotBehindFront(before, p, side, levels);
    assert LevelOk(before, p, side, levels[0]);
    FrontLevelKept(before, after, id, front, f, p, side, levels[0]);
    assert SideOk(before, p, side, levels[1..]) && NotQueued(levels[1..], id);
    SideSame(before, after, id, front, f, p, side, levels[1..]);
    var levels' := SideAfter(levels, before[front], f, after[front].IsFinished());
    forall i | 0 <= i < |levels'| ensures LevelOk(after, p, side, levels'[i]) {
      assert levels' == levels[1..] || levels'[1..] == levels[1..];
      assert levels' == levels[1..] || (0 < i ==> levels'[i] == levels[1..][i - 1]);
    }
  }

  lemma SortedAfter(b: Book, side: OrderType, m: Order, f: Fill, done: bool)
    requires Sorted(b) && b.Side(side) != [] && b.Side(side)[0].orders != []
    ensures Sorted(b.WithSide(side, SideAfter(b.Side(side), m, f, done)))
  {
    hide Sorted;
    var levels := b.Side(side);
    var levels' := SideAfter(levels, m, f, done);
    if done && |levels[0].orders| == 1 {
      SortedWithout(b, side, 0);
      assert levels' == Links.Without(levels, 0);
    } else {
      SortedReplace(b, side, 0, levels'[0]);
    }
  }

  /** The traded book. */
  lemma BookKept(before: map<OrderId, Order>, after: map<OrderId, Order>, id: OrderId, front: OrderId, f: Fill,
                 p: Pair, side: OrderType, b: Book)
    requires BothFilled(before, after, id, front, f)
    requires BookOk(before, p, b)
    requires b.Side(side) != [] && b.Side(side)[0].orders != [] && b.Side(side)[0].orders[0] == front
    requires before[id].otype == side.Not() && NotQueued(b.Side(side.Not()), id)
    requires before[front].otype == side
    ensures BookOk(after, p, b.WithSide(side, SideAfter(b.Side(side), before[front], f, after[front].IsFinished())))
  {
    var levels, own := b.Side(side), b.Side(side.Not());
    assert SideOk(before, p, side, levels) && SideOk(before, p, side.Not(), own);
    assert Sorted(b) && SideSorted(side, levels) && front in after;
    hide SideOk, BothFilled, FillFits, Sorted, SideSorted, SideAfter;
    NotOnSide(before, p, side, levels, id);
    NotOnSide(before, p, side.Not(), own, front);
    OppositeKept(before, after, id, front, f, p, side, levels);
    SideSame(before, after, id, front, f, p, side.Not(), own);
    SortedAfter(b, side, before[front], f, after[front].IsFinished());
    WithSideTwice(b, side, SideAfter(levels, before[front], f, after[front].IsFinished()), levels);
  }

  /** The book of another pair. */
  lemma OtherBookKept(before: map<OrderId, Order>, after: map<OrderId, Order>, id: OrderId, front: OrderId, f: Fill,
                      p: Pair, b: Book)
    requires BothFilled(before, after, id, front, f)
    requires BookOk(before, p, b)
    requires Pair(before[id].base, before[id].quote) != p && Pair(before[front].base, before[front].quote) != p
    ensures BookOk(after, p, b)
  {
    hide SideOk, BothFilled, FillFits, Sorted;
    NotOnSide(before, p, Buy, b.bids, id);
    NotOnSide(before, p, Buy, b.bids, front);
    NotOnSide(before, p, Sell, b.asks, id);
    NotOnSide(before, p, Sell, b.asks, front);
    SideSame(before, after, id, front, f, p, Buy, b.bids);
    SideSame(before, after, id, front, f, p, Sell, b.asks);
  }

  // ---------- The trade log ----------

  lemma LogExtended(trades: seq<Trade>, t: Trade, id: OrderId)
    ensures Paid(trades + [t], id) == Paid(trades, id) + GivenIn(t, id)
    ensures Received(trades + [t], id) == Received(trades, id) + GottenIn(t, id)
    ensures Returned(trades + [t], id) == Returned(trades, id) + BackIn(t, id)
  {
  }

  /** The account of a filled order stays in balance, and inside its limit price. */
  lemma HistoryAfterFill(o: Order, give: nat, have: nat, paid: nat, received: nat, back: nat)
    requires OrderOk(o) && !o.IsFinished() && HistoryOk(o, paid, received, back)
    requires 0 < give <= o.remainedSell && 0 < have <= o.remainedBuy
    requires OrderOk(AfterFill(o, give, have))
    ensures HistoryOk(AfterFill(o, give, have), paid + give, received + have, back + RestOf(o, give, have))
  {
    assert Slack(o.otype, o.price, o.remainedSell - give, o.remainedBuy - have);
    LimitFromSlack(o.otype, o.price, o.sellAmount, o.buyAmount, o.remainedSell - give, o.remainedBuy - have);
    hide Slack, WithinLimit, ExactAmounts;
  }

  /** Slack in what is left is the limit price respected in what has gone. */
  lemma LimitFromSlack(otype: OrderType, price: Price, sell: nat, buy: nat, sellLeft: nat, buyLeft: nat)
    requires ExactAmounts(otype, price, sell, buy)
    requires sellLeft <= sell && buyLeft <= buy
    ensures Slack(otype, price, sellLeft, buyLeft) <==> WithinLimit(otype, price, sell - sellLeft, buy - buyLeft)
  {
  }

  // ---------- The whole trade ----------

  /** The record of a fill of orders `t` and `m`, before it. */
  function TradeOf(p: PairId, t: Order, m: Order, id: OrderId, front: OrderId, f: Fill): Trade {
    Trade(p, id, front, t.otype, m.price, f,
          RestOf(t, GiveOf(f, t.otype), HaveOf(f, t.otype)),
          RestOf(m, GiveOf(f, m.otype), HaveOf(f, m.otype)))
  }

  /** What a trade changes: two orders, the frozen funds behind them, one side of one book, the log. */
  ghost predicate Traded(w: World, w': World, p: PairId, id: OrderId, front: OrderId, f: Fill) {
    && p in w.pairs && p in w.books
    && BothFilled(w.orders, w'.orders, id, front, f)
    && var t, m, side := w.orders[id], w.orders[front], w.orders[id].otype.Not();
       var b := w.books[p];
       && Resting(t, w.pairs[p], t.otype, t.price) && Resting(m, w.pairs[p], side, m.price)
       && t.SellToken() != m.SellToken()
       && b.Side(side) != [] && b.Side(side)[0].orders != [] && b.Side(side)[0].orders[0] == front
       && NotQueued(b.Side(t.otype), id)
       && w'.books == w.books[p := b.WithSide(side, SideAfter(b.Side(side), m, f, w'.orders[front].IsFinished()))]
       && w'.pairs == w.pairs && w'.pairOf == w.pairOf
       && w'.ledger.supply == w.ledger.supply && w.ledger.free.Keys <= w'.ledger.free.Keys
       && (forall h: Holding :: Get(w'.ledger.frozen, h) == Get(w.ledger.frozen, h)
            - (if h == (t.owner, t.SellToken()) then t.remainedSell - w'.orders[id].remainedSell else 0)
            - (if h == (m.owner, m.SellToken()) then m.remainedSell - w'.orders[front].remainedSell else 0))
       && w'.trades == w.trades + [TradeOf(p, t, m, id, front, f)]
  }

  lemma TradedParties(w: World, w': World, p: PairId, id: OrderId, front: OrderId, f: Fill)
    requires Traded(w, w', p, id, front, f)
    ensures id in w.orders && front in w.orders && front in w'.orders
  {
  }

  lemma BackedKept(w: World, w': World, p: PairId, id: OrderId, front: OrderId, f: Fill)
    requires Traded(w, w', p, id, front, f) && Backed(w)
    ensures Backed(w')
  {
    assert BothFilled(w.orders, w'.orders, id, front, f);
    hide BothFilled, Resting, NotQueued, SideAfter, Stake;
    forall h: Holding ensures Get(w'.ledger.frozen, h) == Stake(w'.orders, h) {
      StakeAfterTrade(w.orders, w'.orders, id, front, f, h);
    }
  }

  lemma OrdersKept(w: World, w': World, p: PairId, id: OrderId, front: OrderId, f: Fill)
    requires Traded(w, w', p, id, front, f) && OrdersOk(w)
    ensures OrdersOk(w')
  {
    hide Resting, NotQueued, SideAfter;
    var t, m := w.orders[id], w.orders[front];
    assert OrderOk(w'.orders[id]) && OrderOk(w'.orders[front]);
    StakeAfterFill(t, GiveOf(f, t.otype), HaveOf(f, t.otype), (0, 0));
    StakeAfterFill(m, GiveOf(f, m.otype), HaveOf(f, m.otype), (0, 0));
    hide OrderOk, AfterFill;
    forall x | x in w'.orders ensures StoredOk(w', x) {
      assert StoredOk(w, x);
    }
  }

  lemma BooksKept(w: World, w': World, p: PairId, id: OrderId, front: OrderId, f: Fill)
    requires Traded(w, w', p, id, front, f) && BooksOk(w) && PairsOk(w)
    ensures BooksOk(w')
  {
    assert id in w.orders && front in w.orders && front in w'.orders;
    hide FillFits, SideAfter, BookOk, BothFilled, NotQueued;
    forall q | q in w'.books ensures q in w'.pairs && BookOk(w'.orders, w'.pairs[q], w'.books[q]) {
      assert PairOk(w, p) && PairOk(w, q);
      if q == p {
        BookKept(w.orders, w'.orders, id, front, f, w.pairs[p], w.orders[id].otype.Not(), w.books[p]);
      } else {
        OtherBookKept(w.orders, w'.orders, id, front, f, w.pairs[q], w.books[q]);
      }
    }
  }

  lemma PairsKept(w: World, w': World)
    requires PairsOk(w)
    requires w'.pairs == w.pairs && w'.pairOf == w.pairOf && w'.books.Keys <= w.pairs.Keys
    requires w'.ledger.supply == w.ledger.supply
    ensures PairsOk(w')
  {
  }

  lemma QueuedAfter(levels: seq<Level>, i: nat, o: Order, m: Order, f: Fill, done: bool) returns (j: nat)
    requires QueuedAt(levels, i, o) && levels[0].orders != []
    requires done ==> o.id != levels[0].orders[0]
    ensures QueuedAt(SideAfter(levels, m, f, done), j, o)
  {
    j := if done && |levels[0].orders| == 1 then i - 1 else i;
    if i == 0 {
      var k :| 0 <= k < |levels[0].orders| && levels[0].orders[k] == o.id;
      assert done ==> levels[0].orders[1..][k - 1] == o.id;
    }
  }

  lemma QueuedKept(w: World, w': World, p: PairId, id: OrderId, front: OrderId, f: Fill, o: Order)
    requires Traded(w, w', p, id, front, f)
    requires Queued(w, o) && (o.id == front ==> !w'.orders[front].IsFinished())
    ensures Queued(w', o)
  {
    assert id in w.orders && front in w.orders && front in w'.orders;
    hide BothFilled, NotQueued, Resting, SideAfter, FillFits;
    var side := w.orders[id].otype.Not();
    var q := w.pairOf[(o.base, o.quote)];
    var i :| QueuedAt(w.books[q].Side(o.otype), i, o);
    var levels := w.books[p].Side(side);
    var after := SideAfter(levels, w.orders[front], f, w'.orders[front].IsFinished());
    WithSideTwice(w.books[p], side, after, levels);
    if q == p && o.otype == side {
      var j := QueuedAfter(levels, i, o, w.orders[front], f, w'.orders[front].IsFinished());
      assert QueuedAt(w'.books[q].Side(o.otype), j, o);
    } else {
      assert QueuedAt(w'.books[q].Side(o.otype), i, o);
    }
  }

  lemma ListedKept(w: World, w': World, p: PairId, id: OrderId, front: OrderId, f: Fill)
    requires Traded(w, w', p, id, front, f) && Listed(w, {id}) && OrdersOk(w)
    ensures Listed(w', {id})
  {
    var m := w.orders[front];
    StakeAfterFill(m, GiveOf(f, m.otype), HaveOf(f, m.otype), (0, 0));
    forall x | x in w'.orders && x != id && !w'.orders[x].IsFinished() ensures Queued(w', w'.orders[x]) {
      assert StoredOk(w, x);
      assert SameTerms(w.orders[x], w'.orders[x]);
      QueuedKept(w, w', p, id, front, f, w.orders[x]);
      SameQueue(w', w.orders[x], w'.orders[x]);
    }
  }

  lemma SameQueue(w: World, o: Order, o': Order)
    requires SameTerms(o, o') && Queued(w, o)
    ensures Queued(w, o')
  {
    var p := w.pairOf[(o.base, o.quote)];
    var i :| QueuedAt(w.books[p].Side(o.otype), i, o);
    assert QueuedAt(w.books[p].Side(o'.otype), i, o');
  }

  lemma TradesKept(w: World, w': World, p: PairId, id: OrderId, front: OrderId, f: Fill)
    requires Traded(w, w', p, id, front, f) && TradesOk(w) && OrdersOk(w)
    ensures TradesOk(w')
  {
    hide Resting, NotQueued, SideAfter, HistoryOk, OrderOk, AfterFill, RestOf, Paid, Received, Returned;
    var t, m := w.orders[id], w.orders[front];
    assert StoredOk(w, id) && StoredOk(w, front);
    forall x | x in w'.orders ensures LogOk(w', x) {
      LogExtended(w.trades, TradeOf(p, t, m, id, front, f), x);
      assert LogOk(w, x);
      var paid, received, back := Paid(w.trades, x), Received(w.trades, x), Returned(w.trades, x);
      if x == id {
        HistoryAfterFill(t, GiveOf(f, t.otype), HaveOf(f, t.otype), paid, received, back);
      } else if x == front {
        HistoryAfterFill(m, GiveOf(f, m.otype), HaveOf(f, m.otype), paid, received, back);
      }
    }
  }

  /** What a trade needs to know about the order that is poised, and its pair. */
  lemma PoisedFacts(w: World, p: PairId, id: OrderId)
    requires Poised(w, p, id) && Crossing(w, p, id)
    ensures p in w.pairs && p in w.books && id in w.orders && Opposite(w, p, id) != []
    ensures w.pairs[p].base != w.pairs[p].quote
    ensures w.orders[id].base == w.pairs[p].base && w.orders[id].quote == w.pairs[p].quote
    ensures NotQueued(w.books[p].Side(w.orders[id].otype), id)
  {
    hide Orderly, OrdersOk, Backed, BooksOk, Listed, TradesOk, NotQueued;
    assert PairOk(w, p);
  }

  /** A trade that goes through is a trade in the above sense. */
  lemma TradeIsTraded(w: World, p: PairId, id: OrderId)
    requires Poised(w, p, id) && Crossing(w, p, id) && CanTrade(w, p, id)
    ensures Traded(w, TradeOnce(w, p, id), p, id, Front(w, p, id), SettledFront(w, p, id).fill)
    ensures Orderly(w.ledger) && Orderly(TradeOnce(w, p, id).ledger)
  {
    hide Poised, Crossing, Settle, LevelsAfter, Orderly, OrderOk, AfterFill, RestOf, NotQueued, LevelOk, FillFits,
      Tradable;
    PoisedFacts(w, p, id);
    PoisedOrder(w, p, id);
    FrontFacts(w, p, id);
    NextTradable(w, p, id);
    var taker, maker := w.orders[id], w.orders[Front(w, p, id)];
    SettleEffect(w.ledger, taker.SellToken(), maker.SellToken(), taker, maker);
    FitsMirrored(SettledFront(w, p, id).fill, taker, maker);
  }

  lemma FitsMirrored(f: Fill, taker: Order, maker: Order)
    requires FillFits(f, taker, maker)
    ensures GiveOf(f, maker.otype) == HaveOf(f, taker.otype) && HaveOf(f, maker.otype) == GiveOf(f, taker.otype)
    ensures GiveOf(f, taker.otype) <= taker.remainedSell && HaveOf(f, taker.otype) <= taker.remainedBuy
    ensures GiveOf(f, maker.otype) <= maker.remainedSell && HaveOf(f, maker.otype) <= maker.remainedBuy
  {
  }

  /** A trade of a poised order leaves it poised: nothing that the exchange relies on is lost but,
      perhaps, conservation. */
  lemma TradeKeepsPoised(w: World, p: PairId, id: OrderId)
    requires Poised(w, p, id) && Crossing(w, p, id) && CanTrade(w, p, id)
    ensures Poised(TradeOnce(w, p, id), p, id)
  {
    hide TradeOnce, Orderly, Crossing, CanTrade;
    TradeIsTraded(w, p, id);
    var w', front, f := TradeOnce(w, p, id), Front(w, p, id), SettledFront(w, p, id).fill;
    BackedKept(w, w', p, id, front, f);
    OrdersKept(w, w', p, id, front, f);
    BooksKept(w, w', p, id, front, f);
    PairsKept(w, w');
    ListedKept(w, w', p, id, front, f);
    TradesKept(w, w', p, id, front, f);
    StillPoised(w, w', p, id, front, f);
  }

  lemma StillPoised(w: World, w': World, p: PairId, id: OrderId, front: OrderId, f: Fill)
    requires Traded(w, w', p, id, front, f) && Poised(w, p, id)
    ensures var o := w'.orders[id];
            && !o.status.Canceled? && o.base == w'.pairs[p].base && o.quote == w'.pairs[p].quote
            && NotQueued(w'.books[p].Side(o.otype), id)
  {
    var t := w.orders[id];
    StakeAfterFill(t, GiveOf(f, t.otype), HaveOf(f, t.otype), (0, 0));
    hide Coherent, OrderOk, SideAfter;
  }

  // ---------- Conservation ----------

  /** In a sound ledger, a trade that goes through keeps conservation if and only if it is one with
      somebody else; and what was put into circulation otherwise stays there. */
  lemma TradeSoundExact(w: World, p: PairId, id: OrderId)
    requires Poised(w, p, id) && Crossing(w, p, id) && CanTrade(w, p, id)
    ensures var w' := TradeOnce(w, p, id);
            && (Sound(w.ledger) ==> (Sound(w'.ledger) <==> MeetsAnother(w, p, id)))
            && (Sound(w.ledger) && !MeetsAnother(w, p, id) ==> Inflated(w'.ledger))
            && (Inflated(w.ledger) ==> Inflated(w'.ledger))
  {
    hide Poised, Crossing, Sound, Inflated, Orderly, Tradable, Settle, LevelOk, StoredOk, LevelsAfter;
    PoisedOrder(w, p, id);
    FrontFacts(w, p, id);
    NextTradable(w, p, id);
    var taker, maker := w.orders[id], w.orders[Front(w, p, id)];
    SettleSoundExact(w.ledger, taker.SellToken(), maker.SellToken(), taker, maker);
  }
}

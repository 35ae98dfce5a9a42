/** What matching takes off the stored amounts of the levels, price by price, and whether it is there. */
module Reductions {
  import opened Base
  import opened Words
  import opened Orders
  import opened FillMath
  import opened Ledger
  import opened Books
  import opened Settlement
  import opened World
  import opened Matching
  import opened TradeInvariants
  import opened Engine

  // ---------- Levels by price ----------

  /** Where a side has no level, nothing is wanted or offered. */
  function NoLevel(price: Price): Level {
    Level(price, 0, 0, [], 0, 0)
  }

  function At(levels: seq<Level>, price: Price): Level {
    if levels == [] then NoLevel(price)
    else if levels[0].price == price then levels[0]
    else At(levels[1..], price)
  }

  lemma {:induction false} AtLevel(side: OrderType, levels: seq<Level>, i: nat)
    requires SideSorted(side, levels) && i < |levels|
    ensures At(levels, levels[i].price) == levels[i]
  {
    if 0 < i {
      assert Better(side, levels[0].price, levels[i].price);
      AtLevel(side, levels[1..], i - 1);
    }
  }

  lemma {:induction false} AtNone(levels: seq<Level>, price: Price)
    requires forall i :: 0 <= i < |levels| ==> levels[i].price != price
    ensures At(levels, price) == NoLevel(price)
  {
    if levels != [] {
      AtNone(levels[1..], price);
    }
  }

  /** Levels with orders are exactly those that are found. */
  lemma AtFound(orders: map<OrderId, Order>, p: Pair, side: OrderType, levels: seq<Level>, price: Price)
    requires SideOk(orders, p, side, levels) && SideSorted(side, levels)
    ensures HasLevel(levels, price) <==> At(levels, price).orders != []
  {
    hide SumBuy, SumSell, Resting;
    if HasLevel(levels, price) {
      var i :| 0 <= i < |levels| && levels[i].price == price;
      AtLevel(side, levels, i);
      assert LevelOk(orders, p, side, levels[i]);
    } else {
      AtNone(levels, price);
    }
  }

  /** What the orders of a level offer and want, according to its record. */
  function Offer(l: Level): int {
    l.sell - l.extraSell
  }

  function Want(l: Level): int {
    l.buy + l.shortBuy
  }

  lemma FrontCovered(orders: map<OrderId, Order>, p: Pair, side: OrderType, l: Level)
    requires LevelOk(orders, p, side, l)
    ensures l.orders[0] in orders
    ensures orders[l.orders[0]].remainedSell <= Offer(l) && orders[l.orders[0]].remainedBuy <= Want(l)
  {
  }

  // ---------- What trades take ----------

  /** What the resting order of a trade gives, and gets. */
  function MakerGives(t: Trade): nat {
    HaveOf(t.fill, t.otype)
  }

  function MakerGets(t: Trade): nat {
    GiveOf(t.fill, t.otype)
  }

  /** What some trades take off the stored sell amount, and buy amount, of a price. */
  function TakenSell(trades: seq<Trade>, price: Price): nat {
    if trades == [] then 0 else
      TakenSell(trades[1..], price) + if trades[0].price == price then MakerGives(trades[0]) else 0
  }

  function TakenBuy(trades: seq<Trade>, price: Price): nat {
    if trades == [] then 0 else
      TakenBuy(trades[1..], price) + if trades[0].price == price then MakerGets(trades[0]) else 0
  }

  /** What the resting orders of some trades at one price did not need. */
  function DustAt(trades: seq<Trade>, price: Price): nat {
    if trades == [] then 0 else
      DustAt(trades[1..], price) + if trades[0].price == price then trades[0].makerBack else 0
  }

  lemma OneFirst(t: Trade, trades: seq<Trade>, q: Price)
    ensures TakenSell([t] + trades, q) == TakenSell(trades, q) + if t.price == q then MakerGives(t) else 0
    ensures TakenBuy([t] + trades, q) == TakenBuy(trades, q) + if t.price == q then MakerGets(t) else 0
    ensures DustAt([t] + trades, q) == DustAt(trades, q) + if t.price == q then t.makerBack else 0
  {
    assert ([t] + trades)[1..] == trades;
  }

  // ---------- One trade ----------

  /** `later` is what is left of a queue when orders have gone from its front. */
  ghost predicate TailOf(queue: seq<OrderId>, later: seq<OrderId>) {
    |later| <= |queue| && later == queue[|queue| - |later|..]
  }

  /** A trade takes its amounts off the level at its price, and perhaps the first order, or the level is gone; it
      leaves the others alone. */
  ghost predicate LevelAfter(l: Level, l': Level, t: Trade, price: Price) {
    if price != t.price then l' == l
    else
      || l' == NoLevel(price)
      || (l.orders != [] && (l'.orders == l.orders || l'.orders == l.orders[1..])
          && l'.sell == l.sell - MakerGives(t) && l'.buy == l.buy - MakerGets(t)
          && l'.extraSell == l.extraSell + t.makerBack && l'.shortBuy == l.shortBuy)
  }

  ghost predicate SideStep(levels: seq<Level>, levels': seq<Level>, t: Trade) {
    && levels != [] && t.price == levels[0].price && At(levels, t.price) == levels[0]
    && MakerGives(t) + t.makerBack <= Offer(levels[0]) && MakerGets(t) <= Want(levels[0])
    && forall q :: LevelAfter(At(levels, q), At(levels', q), t, q)
  }

  lemma SideAfterAt(side: OrderType, levels: seq<Level>, m: Order, f: Fill, done: bool, q: Price)
    requires levels != [] && levels[0].orders != [] && SideSorted(side, levels)
    ensures var give, have := GiveOf(f, m.otype), HaveOf(f, m.otype);
            var l, l' := At(levels, q), At(SideAfter(levels, m, f, done), q);
            if q != levels[0].price then l' == l
            else
              || l' == NoLevel(q)
              || (l.orders != [] && (l'.orders == l.orders || l'.orders == l.orders[1..])
                  && l'.sell == l.sell - give && l'.buy == l.buy - have
                  && l'.extraSell == l.extraSell + RestOf(m, give, have) && l'.shortBuy == l.shortBuy)
  {
    hide RestOf;
    var levels' := SideAfter(levels, m, f, done);
    if done && |levels[0].orders| == 1 {
      assert levels' == levels[1..];
      if q == levels[0].price {
        forall i | 0 <= i < |levels'| ensures levels'[i].price != q {
          assert Better(side, levels[0].price, levels[i + 1].price);
        }
        AtNone(levels', q);
      }
    } else {
      assert levels'[1..] == levels[1..] && levels'[0].price == levels[0].price;
    }
  }

  lemma PoisedSides(w: World, p: PairId, id: OrderId)
    requires p in w.books && id in w.orders && Poised(w, p, id)
    ensures p in w.pairs && SideSorted(w.orders[id].otype.Not(), Opposite(w, p, id))
    ensures SideOk(w.orders, w.pairs[p], w.orders[id].otype.Not(), Opposite(w, p, id))
  {
    hide Orderly, PairsOk, OrdersOk, Backed, Listed, TradesOk, NotQueued, SideOk, SideSorted;
    assert BookOk(w.orders, w.pairs[p], w.books[p]);
  }

  /** The trade that a step of the matcher logs. */
  function LastTrade(w: World): Trade
    requires w.trades != []
  {
    w.trades[|w.trades| - 1]
  }

  lemma TradeStep(w: World, p: PairId, id: OrderId)
    requires p in w.books && id in w.orders && Poised(w, p, id) && MayTrade(w, p, id)
    ensures p in TradeOnce(w, p, id).books && id in TradeOnce(w, p, id).orders
    ensures var w' := TradeOnce(w, p, id);
            && w'.trades != [] && w'.trades == w.trades + [LastTrade(w')]
            && LastTrade(w').fill == SettledFront(w, p, id).fill && LastTrade(w').otype == w.orders[id].otype
            && LastTrade(w').pair == p
            && SideStep(Opposite(w, p, id), Opposite(w', p, id), LastTrade(w'))
  {
    hide Poised, Crossing, CanTrade, TradeOnce, Settle, SameTerms, OrderOk, NotQueued, LevelOk, FillFits, Priority,
      SideSorted, SideAfter, BothFilled, StoredOk, SideOk;
    PoisedSides(w, p, id);
    FrontFacts(w, p, id);
    TradeProgress(w, p, id);
    TradeIsTraded(w, p, id);
    var w', front, f := TradeOnce(w, p, id), Front(w, p, id), SettledFront(w, p, id).fill;
    var levels, side := Opposite(w, p, id), w.orders[id].otype.Not();
    TermsOf(w, w', id);
    TradeWithin(w, w', p, id, front, f);
    FrontCovered(w.orders, w.pairs[p], side, levels[0]);
    AtLevel(side, levels, 0);
    forall q ensures LevelAfter(At(levels, q), At(Opposite(w', p, id), q), LastTrade(w'), q) {
      SideAfterAt(side, levels, w.orders[front], f, w'.orders[front].IsFinished(), q);
    }
  }

  lemma TradeWithin(w: World, w': World, p: PairId, id: OrderId, front: OrderId, f: Fill)
    requires Traded(w, w', p, id, front, f)
    ensures id in w.orders && front in w.orders
    ensures var t, m := w.orders[id], w.orders[front];
            && GiveOf(f, m.otype) == HaveOf(f, t.otype) && HaveOf(f, m.otype) == GiveOf(f, t.otype)
            && HaveOf(f, t.otype) + RestOf(m, HaveOf(f, t.otype), GiveOf(f, t.otype)) <= m.remainedSell
            && GiveOf(f, t.otype) <= m.remainedBuy
  {
    hide SideAfter, NotQueued, Resting, AfterFill;
    FitsMirrored(f, w.orders[id], w.orders[front]);
  }

  // ---------- A whole match ----------

  /** The trades by which `w'` is ahead of `w`. */
  function News(w: World, w': World): seq<Trade> {
    if |w.trades| <= |w'.trades| then w'.trades[|w.trades|..] else []
  }

  lemma NewsStep(w: World, w1: World, w': World)
    requires w1.trades != [] && w1.trades == w.trades + [LastTrade(w1)] && w1.trades <= w'.trades
    ensures News(w, w') == [LastTrade(w1)] + News(w1, w')
  {
  }

  /** What a match leaves of a level: it is gone, or its amounts are less by what was taken, and it offers more
      than its orders by what they did not need. */
  ghost predicate LevelLeft(l: Level, l': Level, trades: seq<Trade>, price: Price) {
    || l' == NoLevel(price)
    || (l.orders != [] && TailOf(l.orders, l'.orders)
        && l'.sell == l.sell - TakenSell(trades, price) && l'.buy == l.buy - TakenBuy(trades, price)
        && l'.extraSell == l.extraSell + DustAt(trades, price) && l'.shortBuy == l.shortBuy)
  }

  ghost predicate SideLeft(levels: seq<Level>, levels': seq<Level>, trades: seq<Trade>) {
    forall q :: LevelLeft(At(levels, q), At(levels', q), trades, q)
  }

  lemma LeftOn(levels: seq<Level>, levels1: seq<Level>, levels': seq<Level>, t: Trade, trades: seq<Trade>)
    requires SideStep(levels, levels1, t) && SideLeft(levels1, levels', trades)
    ensures SideLeft(levels, levels', [t] + trades)
  {
    forall q ensures LevelLeft(At(levels, q), At(levels', q), [t] + trades, q) {
      OneFirst(t, trades, q);
      assert LevelAfter(At(levels, q), At(levels1, q), t, q) && LevelLeft(At(levels1, q), At(levels', q), trades, q);
    }
  }

  lemma NothingLeft(orders: map<OrderId, Order>, p: Pair, side: OrderType, levels: seq<Level>)
    requires SideOk(orders, p, side, levels) && SideSorted(side, levels)
    ensures SideLeft(levels, levels, [])
  {
    hide SideOk, SideSorted, LevelOk;
    forall q ensures LevelLeft(At(levels, q), At(levels, q), [], q) {
      AtFound(orders, p, side, levels, q);
      if !HasLevel(levels, q) {
        AtNone(levels, q);
      }
    }
  }

  /** What a match leaves of the levels, whatever it starts from: at every price at which a level survives, the
      amounts are less by what the trades took, and the level offers more than its orders by what it did
      before and what orders filled at its price did not need. */
  lemma {:induction false} MatchLeaves(w: World, p: PairId, id: OrderId)
    requires p in w.books && id in w.orders && Poised(w, p, id)
    ensures SideLeft(Opposite(w, p, id), Opposite(Match(w, p, id), p, id), News(w, Match(w, p, id)))
    decreases !w.orders[id].status.Filled?, |Priority(Opposite(w, p, id))|
  {
    hide Poised, TradeOnce, Crossing, CanTrade, Priority, Opposite, SameTerms, SideLeft, SideStep, SideOk;
    MatchUnfold(w, p, id);
    if MayTrade(w, p, id) {
      TradeProgress(w, p, id);
      TradeStep(w, p, id);
      var w1, m := TradeOnce(w, p, id), Match(w, p, id);
      LogGrows(w1, p, id);
      MatchLeaves(w1, p, id);
      NewsStep(w, w1, m);
      LeftOn(Opposite(w, p, id), Opposite(w1, p, id), Opposite(m, p, id), LastTrade(w1), News(w1, m));
    } else {
      PoisedSides(w, p, id);
      NothingLeft(w.orders, w.pairs[p], w.orders[id].otype.Not(), Opposite(w, p, id));
      assert News(w, w) == [];
    }
  }

  // ---------- What else a match changes ----------

  /** A match changes one side of one book. */
  ghost predicate OnlySide(w: World, w': World, p: PairId, side: OrderType)
    requires p in w.books
  {
    && w'.books.Keys == w.books.Keys
    && (forall q <- w.books.Keys :: q != p ==> w'.books[q] == w.books[q])
    && w'.books[p].Side(side.Not()) == w.books[p].Side(side.Not())
  }

  lemma {:induction false} MatchOnlySide(w: World, p: PairId, id: OrderId)
    requires p in w.books && id in w.orders && Poised(w, p, id)
    ensures OnlySide(w, Match(w, p, id), p, w.orders[id].otype.Not())
    decreases !w.orders[id].status.Filled?, |Priority(Opposite(w, p, id))|
  {
    hide Poised, TradeOnce, Crossing, CanTrade, Priority, Opposite, SameTerms, Traded, OnlySide;
    MatchUnfold(w, p, id);
    if MayTrade(w, p, id) {
      TradeProgress(w, p, id);
      FrontOwner(w, p, id);
      TradeIsTraded(w, p, id);
      var w1, side := TradeOnce(w, p, id), w.orders[id].otype.Not();
      TermsOf(w, w1, id);
      TradedOnlySide(w, w1, p, id, Front(w, p, id), SettledFront(w, p, id).fill);
      MatchOnlySide(w1, p, id);
      OnlySideOn(w, w1, Match(w, p, id), p, side);
    } else {
      OnlySideSelf(w, p, w.orders[id].otype.Not());
    }
  }

  lemma TradedOnlySide(w: World, w': World, p: PairId, id: OrderId, front: OrderId, f: Fill)
    requires Traded(w, w', p, id, front, f)
    ensures id in w.orders && OnlySide(w, w', p, w.orders[id].otype.Not())
  {
    hide BothFilled, SideAfter, NotQueued, Resting;
    assert id in w.orders by { TradedParties(w, w', p, id, front, f); }
    TradedParties(w, w', p, id, front, f);
  }

  lemma OnlySideOn(w: World, w1: World, w2: World, p: PairId, side: OrderType)
    requires p in w.books && OnlySide(w, w1, p, side) && OnlySide(w1, w2, p, side)
    ensures OnlySide(w, w2, p, side)
  {
  }

  lemma OnlySideSelf(w: World, p: PairId, side: OrderType)
    requires p in w.books
    ensures OnlySide(w, w, p, side)
  {
  }

  /** All trades of a match are of its pair, and with the other side. */
  lemma {:induction false} NewsOf(w: World, p: PairId, id: OrderId)
    requires p in w.books && id in w.orders && Poised(w, p, id)
    ensures forall t <- News(w, Match(w, p, id)) :: t.pair == p && t.otype == w.orders[id].otype
    decreases !w.orders[id].status.Filled?, |Priority(Opposite(w, p, id))|
  {
    hide Poised, TradeOnce, Crossing, CanTrade, Priority, Opposite, SameTerms, SideStep;
    MatchUnfold(w, p, id);
    if MayTrade(w, p, id) {
      TradeProgress(w, p, id);
      TradeStep(w, p, id);
      var w1, m := TradeOnce(w, p, id), Match(w, p, id);
      TermsOf(w, w1, id);
      LogGrows(w1, p, id);
      NewsOf(w1, p, id);
      NewsStep(w, w1, m);
    }
  }

  // ---------- A match takes no more than the orders offer ----------

  ghost predicate WithinOrders(levels: seq<Level>, trades: seq<Trade>) {
    forall q :: TakenSell(trades, q) <= Offer(At(levels, q)) && TakenBuy(trades, q) <= Want(At(levels, q))
  }

  lemma WithinOn(levels: seq<Level>, levels1: seq<Level>, t: Trade, trades: seq<Trade>)
    requires SideStep(levels, levels1, t) && WithinOrders(levels1, trades)
    ensures WithinOrders(levels, [t] + trades)
  {
    forall q
      ensures TakenSell([t] + trades, q) <= Offer(At(levels, q))
      ensures TakenBuy([t] + trades, q) <= Want(At(levels, q))
    {
      OneFirst(t, trades, q);
      assert LevelAfter(At(levels, q), At(levels1, q), t, q);
      assert TakenSell(trades, q) <= Offer(At(levels1, q));
    }
  }

  lemma OffersNatural(orders: map<OrderId, Order>, p: Pair, side: OrderType, levels: seq<Level>)
    requires SideOk(orders, p, side, levels) && SideSorted(side, levels)
    ensures WithinOrders(levels, [])
  {
    hide SideSorted;
    forall q ensures 0 <= Offer(At(levels, q)) && 0 <= Want(At(levels, q)) {
      if i :| 0 <= i < |levels| && levels[i].price == q {
        AtLevel(side, levels, i);
        assert LevelOk(orders, p, side, levels[i]);
      } else {
        AtNone(levels, q);
      }
    }
  }

  /** At each price, a match takes no more than the orders there offer and want. */
  lemma {:induction false} MatchWithin(w: World, p: PairId, id: OrderId)
    requires p in w.books && id in w.orders && Poised(w, p, id)
    ensures WithinOrders(Opposite(w, p, id), News(w, Match(w, p, id)))
    decreases !w.orders[id].status.Filled?, |Priority(Opposite(w, p, id))|
  {
    hide Poised, TradeOnce, Crossing, CanTrade, Priority, Opposite, SameTerms, WithinOrders, SideStep, SideOk;
    MatchUnfold(w, p, id);
    if MayTrade(w, p, id) {
      TradeProgress(w, p, id);
      TradeStep(w, p, id);
      var w1, m := TradeOnce(w, p, id), Match(w, p, id);
      LogGrows(w1, p, id);
      MatchWithin(w1, p, id);
      NewsStep(w, w1, m);
      WithinOn(Opposite(w, p, id), Opposite(w1, p, id), LastTrade(w1), News(w1, m));
    } else {
      PoisedSides(w, p, id);
      OffersNatural(w.orders, w.pairs[p], w.orders[id].otype.Not(), Opposite(w, p, id));
      assert News(w, w) == [];
    }
  }

  // ---------- Whether what is taken is stored ----------

  /** The next trade takes no more off its level than is stored there. */
  predicate TakesStored(w: World, p: PairId, id: OrderId)
    requires p in w.books && id in w.orders && MayTrade(w, p, id)
  {
    var l, otype, f := Opposite(w, p, id)[0], w.orders[id].otype, SettledFront(w, p, id).fill;
    GiveOf(f, otype) <= NodeOf(l).buyAmount && HaveOf(f, otype) <= NodeOf(l).sellAmount
  }

  /** No trade until the order rests takes more off its level than is stored there. */
  ghost predicate NeverUnderflows(w: World, p: PairId, id: OrderId)
    requires p in w.books && id in w.orders
    decreases !w.orders[id].status.Filled?, |Priority(Opposite(w, p, id))|
  {
    MayTrade(w, p, id) ==>
      && TakesStored(w, p, id)
      && (Progresses(w, TradeOnce(w, p, id), p, id) ==> NeverUnderflows(TradeOnce(w, p, id), p, id))
  }

  /** The amounts that some trades take at a price are stored there. */
  ghost predicate LevelSuffices(l: Level, trades: seq<Trade>, price: Price) {
    TakenSell(trades, price) <= NodeOf(l).sellAmount && TakenBuy(trades, price) <= NodeOf(l).buyAmount
  }

  ghost predicate Suffices(levels: seq<Level>, trades: seq<Trade>) {
    forall q :: LevelSuffices(At(levels, q), trades, q)
  }

  lemma WrapLess(x: int, taken: nat)
    requires taken <= Wrap(x)
    ensures Wrap(x - taken) == Wrap(x) - taken
  {
    WrapExact(x, taken);
  }

  lemma SufficesOn(levels: seq<Level>, levels1: seq<Level>, t: Trade, trades: seq<Trade>)
    requires SideStep(levels, levels1, t) && WithinOrders(levels1, trades)
    ensures Suffices(levels, [t] + trades) <==>
            MakerGives(t) <= Wrap(levels[0].sell) && MakerGets(t) <= Wrap(levels[0].buy) && Suffices(levels1, trades)
  {
    hide Wrap, MakerGives, MakerGets;
    OneFirst(t, trades, t.price);
    var paid := MakerGives(t) <= Wrap(levels[0].sell) && MakerGets(t) <= Wrap(levels[0].buy);
    if Suffices(levels, [t] + trades) {
      assert LevelSuffices(At(levels, t.price), [t] + trades, t.price);
    }
    if paid {
      WrapLess(levels[0].sell, MakerGives(t));
      WrapLess(levels[0].buy, MakerGets(t));
      forall q
        ensures LevelSuffices(At(levels, q), [t] + trades, q) <==> LevelSuffices(At(levels1, q), trades, q)
      {
        OneFirst(t, trades, q);
        assert LevelAfter(At(levels, q), At(levels1, q), t, q);
        assert TakenSell(trades, q) <= Offer(At(levels1, q)) && TakenBuy(trades, q) <= Want(At(levels1, q));
      }
    }
  }

  /** No trade of a match takes more off its level than is stored there, if and only if at each price the
      match takes no more in total than is stored at its start. */
  lemma {:induction false} UnderflowExact(w: World, p: PairId, id: OrderId)
    requires p in w.books && id in w.orders && Poised(w, p, id)
    ensures NeverUnderflows(w, p, id) <==> Suffices(Opposite(w, p, id), News(w, Match(w, p, id)))
    decreases !w.orders[id].status.Filled?, |Priority(Opposite(w, p, id))|
  {
    hide Poised, TradeOnce, Crossing, CanTrade, Priority, SameTerms, WithinOrders, SideStep, SideOk, Suffices, Wrap;
    MatchUnfold(w, p, id);
    if MayTrade(w, p, id) {
      TradeProgress(w, p, id);
      TradeStep(w, p, id);
      var w1, m := TradeOnce(w, p, id), Match(w, p, id);
      LogGrows(w1, p, id);
      UnderflowExact(w1, p, id);
      MatchWithin(w1, p, id);
      NewsStep(w, w1, m);
      SufficesOn(Opposite(w, p, id), Opposite(w1, p, id), LastTrade(w1), News(w1, m));
    } else {
      assert News(w, w) == [];
      NothingTaken(Opposite(w, p, id));
    }
  }

  lemma NothingTaken(levels: seq<Level>)
    ensures Suffices(levels, [])
  {
    hide Wrap;
  }

  lemma SufficesLevels(side: OrderType, levels: seq<Level>, trades: seq<Trade>)
    requires SideSorted(side, levels) && WithinOrders(levels, trades)
    ensures Suffices(levels, trades) <==>
            forall i :: 0 <= i < |levels| ==> LevelSuffices(levels[i], trades, levels[i].price)
  {
    hide SideSorted, Wrap, TakenSell, TakenBuy;
    forall i | 0 <= i < |levels| ensures At(levels, levels[i].price) == levels[i] {
      AtLevel(side, levels, i);
    }
    if forall i :: 0 <= i < |levels| ==> LevelSuffices(levels[i], trades, levels[i].price) {
      forall q ensures LevelSuffices(At(levels, q), trades, q) {
        if i :| 0 <= i < |levels| && levels[i].price == q {
          assert LevelSuffices(levels[i], trades, levels[i].price);
        } else {
          AtNone(levels, q);
          assert TakenSell(trades, q) <= Offer(At(levels, q));
        }
      }
    } else {
      var i :| 0 <= i < |levels| && !LevelSuffices(levels[i], trades, levels[i].price);
      assert At(levels, levels[i].price) == levels[i];
      assert !LevelSuffices(At(levels, levels[i].price), trades, levels[i].price);
    }
  }

  /** A match never reduces a stored amount below zero if and only if each level of the other side stores, when
      it begins, all that the match takes there. */
  lemma NeverUnderflowsExact(w: World, p: PairId, id: OrderId)
    requires p in w.books && id in w.orders && Poised(w, p, id)
    ensures var levels, news := Opposite(w, p, id), News(w, Match(w, p, id));
            NeverUnderflows(w, p, id) <==>
              forall i :: 0 <= i < |levels| ==> LevelSuffices(levels[i], news, levels[i].price)
  {
    hide Poised, Match, Opposite, SideSorted, Suffices, WithinOrders, SideOk;
    PoisedSides(w, p, id);
    MatchWithin(w, p, id);
    UnderflowExact(w, p, id);
    SufficesLevels(w.orders[id].otype.Not(), Opposite(w, p, id), News(w, Match(w, p, id)));
  }

  /** A level stores as much as its orders want and offer. */
  ghost predicate Covers(l: Level) {
    Offer(l) <= NodeOf(l).sellAmount && Want(l) <= NodeOf(l).buyAmount
  }

  lemma ShiftCovers(x: nat, d: int)
    ensures x <= (x + d) % TWO_TO_128 <==> x + d % TWO_TO_128 <= U128_MAX
  {
    var r := d % TWO_TO_128;
    assert d == d / TWO_TO_128 * TWO_TO_128 + r;
    if x + r <= U128_MAX {
      RemainderIs(x + d, d / TWO_TO_128, x + r);
    } else if x <= U128_MAX {
      RemainderIs(x + d, d / TWO_TO_128 + 1, x + r - TWO_TO_128);
    }
  }

  lemma RemainderIs(x: int, k: int, r: nat)
    requires x == k * TWO_TO_128 + r && r <= U128_MAX
    ensures x % TWO_TO_128 == r
  {
  }

  /** What is stored covers what the orders of a level offer if and only if this and the record's excess, less
      what has wrapped of it, are a `u128` together; and so for what they want. */
  lemma CoversExact(orders: map<OrderId, Order>, p: Pair, side: OrderType, l: Level)
    requires LevelOk(orders, p, side, l)
    ensures forall id <- l.orders :: id in orders
    ensures var sells, buys := SumSell(orders, l.orders), SumBuy(orders, l.orders);
            && (sells <= NodeOf(l).sellAmount <==> sells + l.extraSell % TWO_TO_128 <= U128_MAX)
            && (buys <= NodeOf(l).buyAmount <==> buys + (-l.shortBuy) % TWO_TO_128 <= U128_MAX)
            && (Covers(l) <==> sells <= NodeOf(l).sellAmount && buys <= NodeOf(l).buyAmount)
  {
    hide SumSell, SumBuy, Wrap, Resting;
    WrapIsRemainder(l.sell);
    WrapIsRemainder(l.buy);
    ShiftCovers(SumSell(orders, l.orders), l.extraSell);
    ShiftCovers(SumBuy(orders, l.orders), -l.shortBuy);
  }

  /** Where every level stores as much as its orders want and offer, no order that comes in, whatever it is,
      takes more than is stored. */
  lemma CoveredNeverUnderflows(w: World, p: PairId, id: OrderId)
    requires p in w.books && id in w.orders && Poised(w, p, id)
    requires forall i :: 0 <= i < |Opposite(w, p, id)| ==> Covers(Opposite(w, p, id)[i])
    ensures NeverUnderflows(w, p, id)
  {
    hide Poised, Match, Opposite, SideSorted, SideOk, TakenSell, TakenBuy, Wrap;
    PoisedSides(w, p, id);
    MatchWithin(w, p, id);
    NeverUnderflowsExact(w, p, id);
    var levels, news := Opposite(w, p, id), News(w, Match(w, p, id));
    forall i | 0 <= i < |levels| ensures LevelSuffices(levels[i], news, levels[i].price) {
      AtLevel(w.orders[id].otype.Not(), levels, i);
      assert Covers(levels[i]) && TakenSell(news, levels[i].price) <= Offer(At(levels, levels[i].price));
    }
  }
}

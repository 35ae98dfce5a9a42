/** What happens to orders and balances over time: orders only shrink and finished ones never change,
    and every balance is what was issued and transferred plus what the trades moved. */
module LifeCycle {
  import opened Base
  import opened Sums
  import opened Orders
  import opened FillMath
  import opened Ledger
  import opened Books
  import opened Settlement
  import opened World
  import opened Matching
  import opened TradeInvariants
  import opened Engine
  import opened Operations
  import opened Transitions

  // ---------- Orders over time ----------

  /** An order keeps its terms, wants and offers no more than before, and is final once it is finished. */
  ghost predicate Advances(o: Order, o': Order) {
    && SameTerms(o, o') && o'.remainedSell <= o.remainedSell && o'.remainedBuy <= o.remainedBuy
    && (o.IsFinished() ==> o' == o)
  }

  /** No order is forgotten, every order advances, and the trade log only grows. */
  ghost predicate Evolves(w: World, w': World) {
    && w.trades <= w'.trades
    && (forall x <- w.orders.Keys :: x in w'.orders && Advances(w.orders[x], w'.orders[x]))
  }

  lemma EvolvesOn(w: World, w1: World, w2: World)
    requires Evolves(w, w1) && Evolves(w1, w2)
    ensures Evolves(w, w2)
  {
  }

  lemma TradedEvolves(w: World, w': World, p: PairId, id: OrderId, front: OrderId, f: Fill)
    requires Traded(w, w', p, id, front, f)
    ensures Evolves(w, w')
  {
    hide NotQueued, SideAfter, OrderOk, Resting;
  }

  lemma {:induction false} MatchEvolves(w: World, p: PairId, id: OrderId)
    requires p in w.books && id in w.orders && Poised(w, p, id)
    ensures Evolves(w, Match(w, p, id))
    decreases !w.orders[id].status.Filled?, |Priority(Opposite(w, p, id))|
  {
    hide Poised, TradeOnce, Crossing, CanTrade, Priority, Opposite, Evolves, Traded, SameTerms;
    MatchUnfold(w, p, id);
    if MayTrade(w, p, id) {
      TradeProgress(w, p, id);
      FrontOwner(w, p, id);
      TradeIsTraded(w, p, id);
      var w1 := TradeOnce(w, p, id);
      TradedEvolves(w, w1, p, id, Front(w, p, id), SettledFront(w, p, id).fill);
      MatchEvolves(w1, p, id);
      EvolvesOn(w, w1, Match(w, p, id));
    } else {
      EvolvesSelf(w);
    }
  }

  lemma EvolvesSelf(w: World)
    ensures Evolves(w, w)
  {
  }

  lemma PlaceEvolves(w: World, p: PairId, o: Order)
    requires Placeable(w, p, o)
    ensures p in Place(w, p, o).books && o.id in Place(w, p, o).orders
    ensures Evolves(w, Place(w, p, o))
  {
  }

  lemma MatchedEvolves(w: World, p: PairId, o: Order)
    requires Coherent(w, {}) && Placeable(w, p, o) && Matched(w, p, o).Ok?
    ensures Evolves(w, Matched(w, p, o).value)
  {
    hide Coherent, Poised, Crossing, Match, Place, Evolves, OrderOk, Freeze, Enqueue;
    PlaceEvolves(w, p, o);
    PlaceKeeps(w, p, o);
    var placed := Place(w, p, o);
    MatchEvolves(placed, p, o.id);
    EvolvesOn(w, placed, Match(placed, p, o.id));
    EnqueueOrders(Match(placed, p, o.id), p, o.id);
    SameOrders(w, Match(placed, p, o.id), Matched(w, p, o).value);
  }

  lemma SameOrders(w: World, w1: World, w2: World)
    requires Evolves(w, w1) && w2.orders == w1.orders && w2.trades == w1.trades
    ensures Evolves(w, w2)
  {
  }

  lemma CancelEvolves(w: World, w': World, id: OrderId)
    requires id in w.orders && !w.orders[id].IsFinished()
    requires w'.orders == w.orders[id := w.orders[id].(status := Canceled)] && w'.trades == w.trades
    ensures Evolves(w, w')
  {
  }

  lemma CancelUnfinished(w: World, sender: AccountId, id: OrderId)
    requires CancelCall(w, sender, id).Ok?
    ensures id in w.orders && w.orders[id].owner == sender && !w.orders[id].IsFinished()
  {
  }

  lemma NextEvolves(w: World, c: Call)
    requires Coherent(w, {}) && Covered(w, c)
    ensures Evolves(w, Next(w, c))
  {
    hide Coherent, Evolves, SharesLevel, LimitOrderCall, CancelCall, Matched, Placeable, Admitted, OrderOf;
    EvolvesSelf(w);
    if Perform(w, c).Ok? {
      match c
      case IssueToken(_, _, _) => SameOrders(w, w, Next(w, c));
      case TransferToken(_, _, _, _) => SameOrders(w, w, Next(w, c));
      case CreateTradePair(_, _, _, _) => SameOrders(w, w, Next(w, c));
      case CreateLimitOrder(sender, base, quote, otype, price, sellAmount, order) =>
        CoherentParts(w);
        LimitOrderPlaced(w, sender, base, quote, otype, price, sellAmount, order);
        MatchedEvolves(w, w.pairOf[(base, quote)], OrderOf(sender, base, quote, otype, price, sellAmount, order));
      case CancelLimitOrder(sender, order) =>
        CancelUnfinished(w, sender, order);
        CancelCallKeeps(w, sender, order);
        CancelEvolves(w, Next(w, c), order);
    }
  }

  lemma {:induction false} AllCoveredPrefix(calls: seq<Call>, k: nat)
    requires AllCovered(GENESIS, calls) && k <= |calls|
    ensures AllCovered(GENESIS, calls[..k])
  {
    hide Covered, Run;
    if k < |calls| {
      AllCoveredPrefix(calls[..|calls| - 1], k);
      assert calls[..|calls| - 1][..k] == calls[..k];
    } else {
      assert calls[..k] == calls;
    }
  }

  /** From any moment of a run to its end, orders keep their terms and only shrink; an order that was
      filled or canceled then is exactly the same at the end. */
  lemma {:induction false} RunEvolves(calls: seq<Call>, k: nat)
    requires AllCovered(GENESIS, calls) && k <= |calls|
    ensures Evolves(Run(GENESIS, calls[..k]), Run(GENESIS, calls))
  {
    hide Coherent, Covered, Perform, Next, Evolves;
    if k == |calls| {
      assert calls[..k] == calls;
      EvolvesSelf(Run(GENESIS, calls));
    } else {
      var before := calls[..|calls| - 1];
      RunKeeps(before);
      RunEvolves(before, k);
      assert before[..k] == calls[..k];
      NextEvolves(Run(GENESIS, before), calls[|calls| - 1]);
      EvolvesOn(Run(GENESIS, calls[..k]), Run(GENESIS, before), Run(GENESIS, calls));
    }
  }

  // ---------- Balances over time ----------

  function Credit(h: Holding, owner: AccountId, token: TokenId, amount: nat): nat {
    if h == (owner, token) then amount else 0
  }

  /** What a trade between two orders brings to one holding: each party gets what the other one gives.
      An account that trades with itself gets both shares and gives neither. */
  function Flow(t: Trade, taker: Order, maker: Order, h: Holding): int {
    var g, k := GiveOf(t.fill, t.otype), HaveOf(t.fill, t.otype);
    Shift(h, taker.owner, maker.owner, taker.SellToken(), g) + Shift(h, maker.owner, taker.owner, maker.SellToken(), k)
  }

  /** What `do_transfer` does to one holding. */
  function Shift(h: Holding, from: AccountId, to: AccountId, token: TokenId, amount: nat): int {
    Credit(h, to, token, amount) - if from == to then 0 else Credit(h, from, token, amount)
  }

  ghost predicate PartiesKnown(orders: map<OrderId, Order>, trades: seq<Trade>) {
    forall t <- trades :: t.taker in orders && t.maker in orders
  }

  /** What all trades so far have brought to one holding. */
  function FlowOf(orders: map<OrderId, Order>, trades: seq<Trade>, h: Holding): int
    requires PartiesKnown(orders, trades)
  {
    if trades == [] then 0 else
      var t := trades[|trades| - 1];
      FlowOf(orders, trades[..|trades| - 1], h) + Flow(t, orders[t.taker], orders[t.maker], h)
  }

  lemma {:induction false} FlowStable(orders: map<OrderId, Order>, orders': map<OrderId, Order>, trades: seq<Trade>,
                                      h: Holding)
    requires PartiesKnown(orders, trades)
    requires forall x <- orders.Keys :: x in orders' && SameTerms(orders[x], orders'[x])
    ensures PartiesKnown(orders', trades)
    ensures FlowOf(orders', trades, h) == FlowOf(orders, trades, h)
  {
    if trades != [] {
      FlowStable(orders, orders', trades[..|trades| - 1], h);
    }
  }

  lemma TransferMoves(l: Ledger, from: AccountId, to: AccountId, token: TokenId, amount: nat, h: Holding)
    requires Transfer(l, from, to, token, amount).Ok?
    ensures Get(Transfer(l, from, to, token, amount).value.balance, h)
         == Get(l.balance, h) + Shift(h, from, to, token, amount)
  {
  }

  lemma ExchangeMoves(l: Ledger, a: AccountId, give: TokenId, g: nat, b: AccountId, have: TokenId, k: nat, h: Holding)
    requires Exchanged(l, a, give, g, b, have, k).Ok?
    ensures Get(Exchanged(l, a, give, g, b, have, k).value.balance, h)
         == Get(l.balance, h) + Shift(h, a, b, give, g) + Shift(h, b, a, have, k)
  {
    hide Unfreeze, Transfer, Shift, Orderly;
    UnfreezeChanges(l, a, give, g);
    var l1 := Unfreeze(l, a, give, g).value;
    UnfreezeChanges(l1, b, have, k);
    var l2 := Unfreeze(l1, b, have, k).value;
    TransferMoves(l2, a, b, give, g, h);
    TransferMoves(Transfer(l2, a, b, give, g).value, b, a, have, k, h);
  }

  /** A settlement moves each party's share to the other one, and nothing else. */
  lemma SettleMoves(l: Ledger, give: TokenId, have: TokenId, taker: Order, maker: Order, h: Holding)
    requires Tradable(taker, maker) && 0 < maker.price && give != have && Settle(l, give, have, taker, maker).Ok?
    ensures var s := Settle(l, give, have, taker, maker).value;
            var g, k := GiveOf(s.fill, taker.otype), HaveOf(s.fill, taker.otype);
            Get(s.ledger.balance, h) ==
              Get(l.balance, h) + Shift(h, taker.owner, maker.owner, give, g)
                                + Shift(h, maker.owner, taker.owner, have, k)
  {
    hide Tradable, FillFits, AfterFill, Settle, Moved, Orderly, Shift;
    SettleMoved(l, give, have, taker, maker);
    var s := Settle(l, give, have, taker, maker).value;
    var g, k := GiveOf(s.fill, taker.otype), HaveOf(s.fill, taker.otype);
    MoveChanges(l, taker.owner, give, g, RestOf(taker, g, k), maker.owner, have, k, RestOf(maker, k, g));
    ExchangeMoves(l, taker.owner, give, g, maker.owner, have, k, h);
  }

  /** What has come to a holding other than by trades. */
  function Outside(w: World, h: Holding): int
    requires PartiesKnown(w.orders, w.trades)
  {
    Get(w.ledger.balance, h) - FlowOf(w.orders, w.trades, h)
  }

  /** What the balances and the log of two worlds have to do with each other if one trade lies between them. */
  lemma LogFlows(w: World, w': World, t: Trade, h: Holding)
    requires PartiesKnown(w.orders, w.trades) && Evolves(w, w') && w'.trades == w.trades + [t]
    requires t.taker in w.orders && t.maker in w.orders
    requires Get(w'.ledger.balance, h) == Get(w.ledger.balance, h) + Flow(t, w.orders[t.taker], w.orders[t.maker], h)
    ensures PartiesKnown(w'.orders, w'.trades) && Outside(w', h) == Outside(w, h)
  {
    hide Shift;
    FlowStable(w.orders, w'.orders, w.trades, h);
    assert w'.trades[..|w.trades|] == w.trades;
    assert Advances(w.orders[t.taker], w'.orders[t.taker]) && Advances(w.orders[t.maker], w'.orders[t.maker]);
  }

  lemma TradeFlows(w: World, p: PairId, id: OrderId, h: Holding)
    requires p in w.books && id in w.orders && Poised(w, p, id) && MayTrade(w, p, id)
    requires PartiesKnown(w.orders, w.trades)
    ensures CanTrade(w, p, id)
    ensures var w' := TradeOnce(w, p, id);
            PartiesKnown(w'.orders, w'.trades) && Outside(w', h) == Outside(w, h)
  {
    hide Poised, Crossing, Settle, Traded, Tradable, PartiesKnown, Outside, Evolves, Shift, LevelsAfter;
    TradeIsTraded(w, p, id);
    NextTradable(w, p, id);
    var w', front, s := TradeOnce(w, p, id), Front(w, p, id), SettledFront(w, p, id);
    TradedEvolves(w, w', p, id, front, s.fill);
    var taker, maker := w.orders[id], w.orders[front];
    SettleMoves(w.ledger, taker.SellToken(), maker.SellToken(), taker, maker, h);
    var t := Trade(p, id, front, taker.otype, maker.price, s.fill, s.takerBack, s.makerBack);
    LogFlows(w, w', t, h);
  }

  lemma {:induction false} MatchFlows(w: World, p: PairId, id: OrderId, h: Holding)
    requires p in w.books && id in w.orders && Poised(w, p, id) && PartiesKnown(w.orders, w.trades)
    ensures var w' := Match(w, p, id);
            PartiesKnown(w'.orders, w'.trades) && Outside(w', h) == Outside(w, h)
    decreases !w.orders[id].status.Filled?, |Priority(Opposite(w, p, id))|
  {
    hide Poised, TradeOnce, Crossing, CanTrade, Priority, Opposite, PartiesKnown, Outside, SameTerms;
    MatchUnfold(w, p, id);
    if MayTrade(w, p, id) {
      TradeProgress(w, p, id);
      TradeFlows(w, p, id, h);
      MatchFlows(TradeOnce(w, p, id), p, id, h);
    }
  }

  lemma PartiesStored(w: World)
    requires TradesOk(w)
    ensures PartiesKnown(w.orders, w.trades)
  {
  }

  /** What a call brings to a holding, or takes from it, other than by trades. */
  function Brought(w: World, c: Call, h: Holding): int {
    if Perform(w, c).Err? then 0 else
      match c
      case IssueToken(sender, token, totalSupply) => Credit(h, sender, token, totalSupply)
      case TransferToken(sender, to, token, amount) => Shift(h, sender, to, token, amount)
      case _ => 0
  }

  function AllBrought(calls: seq<Call>, h: Holding): int {
    if calls == [] then 0 else
      var before := calls[..|calls| - 1];
      AllBrought(before, h) + Brought(Run(GENESIS, before), calls[|calls| - 1], h)
  }

  lemma IssueFlows(w: World, sender: AccountId, token: TokenId, amount: nat, h: Holding)
    requires Orderly(w.ledger) && token !in w.ledger.supply
    ensures Get(Issue(w.ledger, sender, token, amount).balance, h)
         == Get(w.ledger.balance, h) + Credit(h, sender, token, amount)
  {
  }

  lemma PlaceFlows(w: World, p: PairId, o: Order, h: Holding)
    requires PartiesKnown(w.orders, w.trades) && Placeable(w, p, o)
    ensures var w' := Place(w, p, o);
            PartiesKnown(w'.orders, w'.trades) && Outside(w', h) == Outside(w, h)
  {
    hide OrderOk;
    FlowStable(w.orders, Place(w, p, o).orders, w.trades, h);
  }

  lemma MatchedFlows(w: World, p: PairId, o: Order, h: Holding)
    requires Coherent(w, {}) && PartiesKnown(w.orders, w.trades) && Placeable(w, p, o) && Matched(w, p, o).Ok?
    ensures var w' := Matched(w, p, o).value;
            PartiesKnown(w'.orders, w'.trades) && Outside(w', h) == Outside(w, h)
  {
    hide Coherent, Poised, Crossing, Match, Place, Evolves, OrderOk, Freeze, Enqueue, PartiesKnown;
    PlaceEvolves(w, p, o);
    PlaceFlows(w, p, o, h);
    PlaceKeeps(w, p, o);
    MatchFlows(Place(w, p, o), p, o.id, h);
    EnqueueOrders(Match(Place(w, p, o), p, o.id), p, o.id);
  }

  lemma SameFlows(w: World, w': World, h: Holding)
    requires PartiesKnown(w.orders, w.trades) && Evolves(w, w') && w'.trades == w.trades
    requires w'.ledger.balance == w.ledger.balance
    ensures PartiesKnown(w'.orders, w'.trades) && Outside(w', h) == Outside(w, h)
  {
    FlowStable(w.orders, w'.orders, w.trades, h);
  }

  lemma NextFlows(w: World, c: Call, h: Holding)
    requires Coherent(w, {}) && Covered(w, c)
    ensures PartiesKnown(w.orders, w.trades) && PartiesKnown(Next(w, c).orders, Next(w, c).trades)
    ensures Outside(Next(w, c), h) == Outside(w, h) + Brought(w, c, h)
  {
    hide Coherent, LimitOrderCall, CancelCall, SharesLevel, Transfer, Shift, Matched, Placeable, Admitted, OrderOf;
    CoherentParts(w);
    PartiesStored(w);
    if Perform(w, c).Ok? {
      match c
      case IssueToken(sender, token, totalSupply) => IssueFlows(w, sender, token, totalSupply, h);
      case TransferToken(sender, to, token, amount) => TransferMoves(w.ledger, sender, to, token, amount, h);
      case CreateTradePair(_, _, _, _) =>
      case CreateLimitOrder(sender, base, quote, otype, price, sellAmount, order) =>
        LimitOrderPlaced(w, sender, base, quote, otype, price, sellAmount, order);
        hide PartiesKnown, Outside;
        MatchedFlows(w, w.pairOf[(base, quote)], OrderOf(sender, base, quote, otype, price, sellAmount, order), h);
      case CancelLimitOrder(sender, order) =>
        CancelUnfinished(w, sender, order);
        CancelCallKeeps(w, sender, order);
        CancelEvolves(w, Next(w, c), order);
        SameFlows(w, Next(w, c), h);
    }
  }

  /** In every reachable state, every balance is what was issued and transferred to its account plus
      what the trades brought it. */
  lemma {:induction false} BalancesExplained(calls: seq<Call>, h: Holding)
    requires AllCovered(GENESIS, calls)
    ensures var w := Run(GENESIS, calls);
            && PartiesKnown(w.orders, w.trades)
            && Get(w.ledger.balance, h) == AllBrought(calls, h) + FlowOf(w.orders, w.trades, h)
  {
    hide Coherent, Covered, Perform, Next, Brought;
    if calls != [] {
      var before := calls[..|calls| - 1];
      RunKeeps(before);
      BalancesExplained(before, h);
      NextFlows(Run(GENESIS, before), calls[|calls| - 1], h);
    }
  }
}

/** Matching an order to the end: the reference matcher run until no trade is possible. */
module Engine {
  import opened Base
  import opened Orders
  import opened FillMath
  import opened Ledger
  import opened Books
  import opened Settlement
  import opened World
  import opened Matching
  import opened TradeInvariants

  /** A trade takes at most the front order out of the queue. */
  lemma PriorityAfter(levels: seq<Level>, m: Order, f: Fill, done: bool)
    requires levels != [] && levels[0].orders != []
    ensures Priority(levels) != [] && Priority(levels)[0] == levels[0].orders[0]
    ensures Priority(SideAfter(levels, m, f, done)) == if done then Priority(levels)[1..] else Priority(levels)
  {
    hide Priority, RestOf;
    var levels' := SideAfter(levels, m, f, done);
    PriorityConcat(levels);
    if done && |levels[0].orders| == 1 {
      assert levels' == levels[1..];
    } else {
      PriorityConcat(levels');
      assert levels'[1..] == levels[1..];
    }
  }

  lemma PriorityConcat(levels: seq<Level>)
    requires levels != []
    ensures Priority(levels) == levels[0].orders + Priority(levels[1..])
  {
  }

  lemma TradedProgress(w: World, w': World, p: PairId, id: OrderId, front: OrderId, f: Fill)
    requires Traded(w, w', p, id, front, f)
    ensures w'.orders.Keys == w.orders.Keys && forall x <- w.orders.Keys :: SameTerms(w.orders[x], w'.orders[x])
    ensures var side := w.orders[id].otype.Not();
            var queue := Priority(w.books[p].Side(side));
            && queue != [] && queue[0] == front
            && Priority(w'.books[p].Side(side)) == if w'.orders[front].IsFinished() then queue[1..] else queue
    ensures w'.orders[front].IsFinished() || w'.orders[id].status.Filled?
  {
    hide NotQueued, Resting, SideAfter, OrderOk, Priority;
    var side := w.orders[id].otype.Not();
    PriorityAfter(w.books[p].Side(side), w.orders[front], f, w'.orders[front].IsFinished());
  }

  /** The next trade is due, and goes through. */
  predicate MayTrade(w: World, p: PairId, id: OrderId)
    requires p in w.books && id in w.orders
  {
    Crossing(w, p, id) && CanTrade(w, p, id)
  }

  /** Each trade fills the incoming order or takes one order off the opposite side. */
  lemma TradeProgress(w: World, p: PairId, id: OrderId)
    requires p in w.books && id in w.orders && Poised(w, p, id) && MayTrade(w, p, id)
    ensures CanTrade(w, p, id) && Poised(TradeOnce(w, p, id), p, id)
    ensures p in TradeOnce(w, p, id).books && id in TradeOnce(w, p, id).orders
    ensures !w.orders[id].status.Filled? && Progresses(w, TradeOnce(w, p, id), p, id)
    ensures var w', front := TradeOnce(w, p, id), Front(w, p, id);
            var queue, queue' := Priority(Opposite(w, p, id)), Priority(Opposite(w', p, id));
            && w'.orders.Keys == w.orders.Keys && (forall x <- w.orders.Keys :: SameTerms(w.orders[x], w'.orders[x]))
            && queue != [] && queue[0] == front
            && w'.trades == w.trades + [w'.trades[|w.trades|]]
            && w'.trades[|w.trades|].taker == id && w'.trades[|w.trades|].maker == front
            && front in w'.orders
            && queue' == (if w'.orders[front].IsFinished() then queue[1..] else queue)
            && (w'.orders[front].IsFinished() || w'.orders[id].status.Filled?)
  {
    assert !w.orders[id].status.Filled?;
    hide Poised, Crossing, CanTrade, TradeOnce, SameTerms, FillFits, BothFilled, NotQueued, Resting, SideAfter,
      Priority;
    FrontOwner(w, p, id);
    TradeKeepsPoised(w, p, id);
    TradeIsTraded(w, p, id);
    var w', front, f := TradeOnce(w, p, id), Front(w, p, id), SettledFront(w, p, id).fill;
    TradedProgress(w, w', p, id, front, f);
    TermsOf(w, w', id);
  }

  lemma TermsOf(w: World, w': World, id: OrderId)
    requires id in w.orders && id in w'.orders && SameTerms(w.orders[id], w'.orders[id])
    ensures w'.orders[id].otype == w.orders[id].otype && w'.orders[id].owner == w.orders[id].owner
  {
  }

  /** The reference matcher: trades for as long as the next trade is due and goes through. The last
      condition holds whenever the order is poised. */
  function Match(w: World, p: PairId, id: OrderId): (w': World)
    requires p in w.books && id in w.orders
    ensures p in w'.books && id in w'.orders
    decreases !w.orders[id].status.Filled?, |Priority(Opposite(w, p, id))|
  {
    if MayTrade(w, p, id) && Progresses(w, TradeOnce(w, p, id), p, id) then Match(TradeOnce(w, p, id), p, id)
    else w
  }

  /** A poised order trades on exactly while its next trade is due and goes through. */
  lemma MatchUnfold(w: World, p: PairId, id: OrderId)
    requires p in w.books && id in w.orders && Poised(w, p, id)
    ensures Match(w, p, id) == if MayTrade(w, p, id) then Match(TradeOnce(w, p, id), p, id) else w
  {
    hide Poised, TradeOnce, Crossing, CanTrade, Priority, Opposite;
    if MayTrade(w, p, id) {
      TradeProgress(w, p, id);
    }
  }

  /** Matching keeps the order poised, and stops before the first trade that is not due or fails. */
  lemma {:induction false} MatchStops(w: World, p: PairId, id: OrderId)
    requires p in w.books && id in w.orders && Poised(w, p, id)
    ensures Poised(Match(w, p, id), p, id) && !MayTrade(Match(w, p, id), p, id)
    decreases !w.orders[id].status.Filled?, |Priority(Opposite(w, p, id))|
  {
    hide Poised, TradeOnce, Crossing, CanTrade, Priority, Opposite;
    MatchUnfold(w, p, id);
    if MayTrade(w, p, id) {
      TradeProgress(w, p, id);
      MatchStops(TradeOnce(w, p, id), p, id);
    }
  }

  lemma CappedKept(w: World, p: PairId, id: OrderId)
    requires p in w.books && id in w.orders && Poised(w, p, id) && MayTrade(w, p, id)
    ensures Capped(TradeOnce(w, p, id), p) <==> Capped(w, p)
  {
    hide Poised, Crossing, CanTrade, TradeOnce, BothFilled, NotQueued, Resting, SideAfter;
    TradeIsTraded(w, p, id);
  }

  /** A ready order trades exactly while it crosses, and stays ready. */
  lemma ReadyTrades(w: World, p: PairId, id: OrderId)
    requires p in w.books && id in w.orders && Ready(w, p, id)
    ensures MayTrade(w, p, id) <==> Crossing(w, p, id)
    ensures MayTrade(w, p, id) ==> MeetsAnother(w, p, id) && CanTrade(w, p, id) && Ready(TradeOnce(w, p, id), p, id)
  {
    hide Poised, Crossing, CanTrade, TradeOnce, Sound, Priority, Opposite, MeetsAnother, Progresses, Capped;
    if Crossing(w, p, id) {
      assert MeetsAnother(w, p, id);
      NeverFails(w, p, id);
      CappedKept(w, p, id);
      TradeProgress(w, p, id);
      TradeSoundExact(w, p, id);
    }
  }

  /** Matching leaves the loop: at the largest price it does only if the order is filled, or a trade fails. */
  predicate Ends(m: World, p: PairId, id: OrderId)
    requires p in m.books && id in m.orders
  {
    m.orders[id].price < U128_MAX || m.orders[id].status.Filled? || Crossing(m, p, id)
  }

  /** An order that has traded all that it can for now. */
  ghost predicate Rested(w: World, p: PairId, id: OrderId)
    requires p in w.books && id in w.orders
  {
    Poised(w, p, id) && Sound(w.ledger) && !Crossing(w, p, id)
  }

  /** Matching a ready order ends only when it is filled or no opposite price suits it. */
  lemma {:induction false} MatchRests(w: World, p: PairId, id: OrderId)
    requires p in w.books && id in w.orders && Ready(w, p, id)
    ensures Rested(Match(w, p, id), p, id)
    decreases !w.orders[id].status.Filled?, |Priority(Opposite(w, p, id))|
  {
    ReadyParts(w, p, id);
    hide Ready, Poised, Sound, TradeOnce, Crossing, CanTrade, Priority, Opposite;
    MatchUnfold(w, p, id);
    ReadyTrades(w, p, id);
    if MayTrade(w, p, id) {
      TradeProgress(w, p, id);
      MatchRests(TradeOnce(w, p, id), p, id);
    }
  }

  lemma ReadyParts(w: World, p: PairId, id: OrderId)
    requires p in w.books && id in w.orders && Ready(w, p, id)
    ensures Poised(w, p, id) && Sound(w.ledger)
  {
    hide Poised, Sound, MeetsOthers, Capped;
  }

  // ---------- When matching goes through ----------

  /** The products and credited balances of all trades until the order rests are `u128`. */
  predicate MatchFits(w: World, p: PairId, id: OrderId)
    requires p in w.books && id in w.orders
    decreases !w.orders[id].status.Filled?, |Priority(Opposite(w, p, id))|
  {
    Crossing(w, p, id) ==>
      && TradeFits(w, p, id)
      && (CanTrade(w, p, id) && Progresses(w, TradeOnce(w, p, id), p, id) ==> MatchFits(TradeOnce(w, p, id), p, id))
  }

  /** Whoever an order trades with, its matching goes through if and only if no product and no credited
      balance leaves `u128`, and it fails for no other reason. */
  lemma {:induction false} MatchFitsExact(w: World, p: PairId, id: OrderId)
    requires p in w.books && id in w.orders && Poised(w, p, id)
    ensures MatchFits(w, p, id) <==> !Crossing(Match(w, p, id), p, id)
    ensures Crossing(Match(w, p, id), p, id) ==> NextError(Match(w, p, id), p, id) == ArithmeticOverflow
    decreases !w.orders[id].status.Filled?, |Priority(Opposite(w, p, id))|
  {
    hide Poised, TradeOnce, Crossing, CanTrade, Priority, Opposite, TradeFits, NextError, SameTerms;
    MatchUnfold(w, p, id);
    if Crossing(w, p, id) {
      TradeExact(w, p, id);
      if CanTrade(w, p, id) {
        TradeProgress(w, p, id);
        MatchFitsExact(TradeOnce(w, p, id), p, id);
      }
    }
  }

  // ---------- Who is met ----------

  /** The trades by which `w'` is ahead of `w` were all with orders of other owners. */
  ghost predicate AmongOthers(w: World, w': World, id: OrderId)
    requires id in w.orders
  {
    forall i :: |w.trades| <= i < |w'.trades| ==>
      w'.trades[i].maker in w.orders ==> w.orders[w'.trades[i].maker].owner != w.orders[id].owner
  }

  lemma AmongOthersStep(w: World, w1: World, w': World, id: OrderId, front: OrderId)
    requires id in w.orders && w1.orders.Keys == w.orders.Keys
    requires forall x <- w.orders.Keys :: SameTerms(w.orders[x], w1.orders[x])
    requires front in w.orders && |w1.trades| == |w.trades| + 1 && w1.trades <= w'.trades
    requires w1.trades[|w.trades|].maker == front
    ensures AmongOthers(w, w', id) <==>
            AmongOthers(w1, w', id) && w.orders[front].owner != w.orders[id].owner
  {
  }

  lemma {:induction false} LogGrows(w: World, p: PairId, id: OrderId)
    requires p in w.books && id in w.orders && Poised(w, p, id)
    ensures w.trades <= Match(w, p, id).trades && Match(w, p, id).orders.Keys == w.orders.Keys
    ensures forall i :: |w.trades| <= i < |Match(w, p, id).trades| ==> Match(w, p, id).trades[i].taker == id
    ensures SameTerms(w.orders[id], Match(w, p, id).orders[id])
    decreases !w.orders[id].status.Filled?, |Priority(Opposite(w, p, id))|
  {
    hide Poised, TradeOnce, Crossing, CanTrade, Priority, Opposite;
    MatchUnfold(w, p, id);
    if MayTrade(w, p, id) {
      TradeProgress(w, p, id);
      LogGrows(TradeOnce(w, p, id), p, id);
    }
  }

  lemma FrontOwner(w: World, p: PairId, id: OrderId)
    requires p in w.books && id in w.orders && Poised(w, p, id) && Crossing(w, p, id)
    ensures Opposite(w, p, id) != [] && Opposite(w, p, id)[0].orders != [] && Front(w, p, id) in w.orders
    ensures MeetsAnother(w, p, id) <==> w.orders[Front(w, p, id)].owner != w.orders[id].owner
  {
    hide Poised, LevelOk, Resting, StoredOk;
    FrontFacts(w, p, id);
  }

  lemma {:induction false} StaysInflated(w: World, p: PairId, id: OrderId)
    requires p in w.books && id in w.orders && Poised(w, p, id) && Inflated(w.ledger)
    ensures Inflated(Match(w, p, id).ledger)
    decreases !w.orders[id].status.Filled?, |Priority(Opposite(w, p, id))|
  {
    hide Poised, TradeOnce, Crossing, CanTrade, Priority, Opposite, Sound, Inflated;
    MatchUnfold(w, p, id);
    if MayTrade(w, p, id) {
      TradeProgress(w, p, id);
      TradeSoundExact(w, p, id);
      StaysInflated(TradeOnce(w, p, id), p, id);
    }
  }

  /** Matching keeps conservation if and only if none of the orders that it trades with, which are the
      first ones in price-time priority, belongs to the owner of the incoming one. */
  lemma {:induction false} MatchSoundExact(w: World, p: PairId, id: OrderId)
    requires p in w.books && id in w.orders && Poised(w, p, id) && Sound(w.ledger)
    ensures Sound(Match(w, p, id).ledger) <==> AmongOthers(w, Match(w, p, id), id)
    ensures Sound(Match(w, p, id).ledger) || Inflated(Match(w, p, id).ledger)
    decreases !w.orders[id].status.Filled?, |Priority(Opposite(w, p, id))|
  {
    hide Poised, TradeOnce, Crossing, CanTrade, Priority, Opposite, Sound, Inflated, MeetsAnother, AmongOthers,
      SameTerms;
    MatchUnfold(w, p, id);
    if MayTrade(w, p, id) {
      TradeProgress(w, p, id);
      TradeSoundExact(w, p, id);
      FrontOwner(w, p, id);
      var w1 := TradeOnce(w, p, id);
      LogGrows(w1, p, id);
      AmongOthersStep(w, w1, Match(w, p, id), id, Front(w, p, id));
      if MeetsAnother(w, p, id) {
        MatchSoundExact(w1, p, id);
      } else {
        StaysInflated(w1, p, id);
        InflatedUnsound(Match(w, p, id).ledger);
      }
    } else {
      NoneYet(w, id);
    }
  }

  lemma NoneYet(w: World, id: OrderId)
    requires id in w.orders
    ensures AmongOthers(w, w, id)
  {
  }

  /** If all trades that are due go through, the order meets others if and only if it trades with others. */
  lemma {:induction false} MeetsOthersExact(w: World, p: PairId, id: OrderId)
    requires p in w.books && id in w.orders && Poised(w, p, id) && !Crossing(Match(w, p, id), p, id)
    ensures MeetsOthers(w, p, id) <==> AmongOthers(w, Match(w, p, id), id)
    decreases !w.orders[id].status.Filled?, |Priority(Opposite(w, p, id))|
  {
    hide Poised, TradeOnce, Crossing, CanTrade, Priority, Opposite, MeetsAnother, AmongOthers, SameTerms;
    MatchUnfold(w, p, id);
    if MayTrade(w, p, id) {
      TradeProgress(w, p, id);
      FrontOwner(w, p, id);
      var w1 := TradeOnce(w, p, id);
      LogGrows(w1, p, id);
      AmongOthersStep(w, w1, Match(w, p, id), id, Front(w, p, id));
      MeetsOthersExact(w1, p, id);
    } else {
      NoneYet(w, id);
    }
  }

  /** No order that the limit price admits belongs to the owner of the incoming one. */
  ghost predicate OthersOnly(w: World, p: PairId, id: OrderId)
    requires p in w.books && id in w.orders
  {
    var o, levels := w.orders[id], Opposite(w, p, id);
    forall i, m :: (0 <= i < |levels| && m in levels[i].orders && m in w.orders &&
                    PriceMatched(o.price, o.otype, w.orders[m].price)) ==> w.orders[m].owner != o.owner
  }

  lemma OthersOnlyKept(w: World, w': World, p: PairId, id: OrderId, front: OrderId, f: Fill)
    requires Traded(w, w', p, id, front, f) && id in w.orders && id in w'.orders && p in w'.books
    requires OthersOnly(w, p, id)
    ensures OthersOnly(w', p, id)
  {
    hide Resting, NotQueued, OrderOk;
    TradedProgress(w, w', p, id, front, f);
    var t := w.orders[id];
    var levels, levels' := Opposite(w, p, id), w'.books[p].Side(t.otype.Not());
    assert levels' == SideAfter(levels, w.orders[front], f, w'.orders[front].IsFinished());
    assert SameTerms(t, w'.orders[id]);
    hide BothFilled;
    forall i, x | 0 <= i < |levels'| && x in levels'[i].orders && x in w'.orders &&
                  PriceMatched(t.price, t.otype, w'.orders[x].price)
      ensures w'.orders[x].owner != t.owner
    {
      var k := if |levels'| < |levels| then i + 1 else i;
      assert x in levels[k].orders && SameTerms(w.orders[x], w'.orders[x]);
    }
  }

  lemma OthersOnlyNext(w: World, p: PairId, id: OrderId)
    requires p in w.books && id in w.orders && Poised(w, p, id) && Crossing(w, p, id) && OthersOnly(w, p, id)
    ensures MeetsAnother(w, p, id)
  {
    FrontFacts(w, p, id);
    hide Poised, LevelOk, StoredOk;
  }

  /** That nobody's own orders stand in the way at any admitted price is a simple guard for it. */
  lemma {:induction false} OthersOnlyMeets(w: World, p: PairId, id: OrderId)
    requires p in w.books && id in w.orders && Poised(w, p, id) && OthersOnly(w, p, id)
    ensures MeetsOthers(w, p, id)
    decreases !w.orders[id].status.Filled?, |Priority(Opposite(w, p, id))|
  {
    hide Poised, TradeOnce, Crossing, CanTrade, Priority, Opposite, MeetsAnother, OthersOnly, Traded, SameTerms;
    if Crossing(w, p, id) {
      OthersOnlyNext(w, p, id);
      FrontOwner(w, p, id);
      if CanTrade(w, p, id) {
        TradeProgress(w, p, id);
        TradeIsTraded(w, p, id);
        OthersOnlyKept(w, TradeOnce(w, p, id), p, id, Front(w, p, id), SettledFront(w, p, id).fill);
        OthersOnlyMeets(TradeOnce(w, p, id), p, id);
      }
    }
  }

  // ---------- Price-time priority ----------

  /** Strict price-time priority: the orders that an incoming order trades with are, in this order, the
      first ones of the opposite side's priority queue, and what is left of the queue begins behind
      them, or with the last of them if the incoming order was filled before it. */
  lemma {:induction false} PriceTimePriority(w: World, p: PairId, id: OrderId)
    requires p in w.books && id in w.orders && Poised(w, p, id)
    ensures InPriority(w, Match(w, p, id), p, id)
    decreases !w.orders[id].status.Filled?, |Priority(Opposite(w, p, id))|
  {
    hide Poised, TradeOnce, CanTrade, InPriority, Priority, Opposite, SameTerms;
    MatchUnfold(w, p, id);
    if MayTrade(w, p, id) {
      TradeProgress(w, p, id);
      FrontOwner(w, p, id);
      var w1 := TradeOnce(w, p, id);
      PriceTimePriority(w1, p, id);
      MatchUnfold(w1, p, id);
      TermsOf(w, w1, id);
      PriorityStep(w, w1, Match(w, p, id), p, id, Front(w, p, id));
    } else {
      NoTrade(w, p, id);
    }
  }

  ghost predicate InPriority(w: World, w': World, p: PairId, id: OrderId) {
    && p in w.books && id in w.orders && p in w'.books && id in w'.orders
    && w'.orders[id].otype == w.orders[id].otype
    && w.trades <= w'.trades
    && var hits := w'.trades[|w.trades|..];
       var queue, left := Priority(Opposite(w, p, id)), Priority(Opposite(w', p, id));
       && |hits| <= |queue|
       && (forall i :: 0 <= i < |hits| ==> hits[i].taker == id && hits[i].maker == queue[i])
       && (left == queue[|hits|..] ||
           (0 < |hits| && left == queue[|hits| - 1..] && w'.orders[id].status.Filled?))
  }

  lemma NoTrade(w: World, p: PairId, id: OrderId)
    requires p in w.books && id in w.orders
    ensures InPriority(w, w, p, id)
  {
  }

  lemma PriorityStep(w: World, w1: World, w': World, p: PairId, id: OrderId, front: OrderId)
    requires InPriority(w1, w', p, id)
    requires p in w.books && id in w.orders && w1.orders[id].otype == w.orders[id].otype
    requires |w1.trades| == |w.trades| + 1 && w.trades <= w1.trades
    requires w1.trades[|w.trades|].taker == id && w1.trades[|w.trades|].maker == front
    requires front in w1.orders
    requires var queue, queue' := Priority(Opposite(w, p, id)), Priority(Opposite(w1, p, id));
             && queue != [] && queue[0] == front
             && queue' == (if w1.orders[front].IsFinished() then queue[1..] else queue)
             && (w1.orders[front].IsFinished() || (w1.orders[id].status.Filled? && w' == w1))
    ensures InPriority(w, w', p, id)
  {
    hide Priority;
    var hits, hits1 := w'.trades[|w.trades|..], w'.trades[|w1.trades|..];
    assert hits == [w1.trades[|w.trades|]] + hits1;
    var queue := Priority(Opposite(w, p, id));
    if w1.orders[front].IsFinished() {
      assert forall i :: 0 < i < |hits| ==> hits[i] == hits1[i - 1] && queue[i] == queue[1..][i - 1];
    }
  }

  /** With the rest of its queue unfinished, a side after a trade is the side with the traded amounts
      taken off and its finished front cleaned up. */
  lemma CleanedAfterTrade(orders: map<OrderId, Order>, p: Pair, side: OrderType, levels: seq<Level>,
                          give: nat, have: nat, rest: nat)
    requires levels != [] && levels[0].orders != []
    requires levels[0].orders[0] in orders
    requires SideOk(orders, p, side, LevelsAfter(levels, give, have, rest, orders[levels[0].orders[0]].IsFinished()))
    ensures Cleaned(orders, levels[0 := Reduced(levels[0], have, give, rest)])
         == LevelsAfter(levels, give, have, rest, orders[levels[0].orders[0]].IsFinished())
  {
    var done := orders[levels[0].orders[0]].IsFinished();
    var after := LevelsAfter(levels, give, have, rest, done);
    var reduced := levels[0 := Reduced(levels[0], have, give, rest)];
    if after != [] {
      assert LevelOk(orders, p, side, after[0]);
      assert after[0].orders != [] && !Done(orders, after[0].orders[0]);
    }
    hide LevelOk, SideOk;
    DropFront(orders, levels[0].orders);
    if done && |levels[0].orders| == 1 {
      assert levels[0].orders[1..] == [] && reduced[1..] == levels[1..] == after;
      UnfinishedFront(orders, after);
    } else {
      DropFront(orders, after[0].orders);
      assert after == reduced[0 := reduced[0].(orders := after[0].orders)];
    }
  }

  lemma UnfinishedFront(orders: map<OrderId, Order>, levels: seq<Level>)
    requires levels != [] ==> levels[0].orders != [] && !Done(orders, levels[0].orders[0])
    ensures Cleaned(orders, levels) == levels
  {
  }
}

/** Price-time priority in terms of the calls: every queue stands in the order in which its orders came in, and
    every trade is with the resting order that has the best price and, at that price, came in first. */
module TimePriority {
  import opened Base
  import opened Orders
  import opened Ledger
  import opened Books
  import opened Settlement
  import opened World
  import opened Matching
  import opened TradeInvariants
  import opened Engine
  import opened Operations
  import opened Transitions
  import opened Reductions
  import opened Records

  // ---------- Who came first ----------

  /** The limit orders that were carried out, in the order of their calls. */
  ghost function Entered(calls: seq<Call>): seq<OrderId> {
    if calls == [] then [] else
      var before, c := calls[..|calls| - 1], calls[|calls| - 1];
      Entered(before) + if c.CreateLimitOrder? && Perform(Run(GENESIS, before), c).Ok? then [c.order] else []
  }

  ghost predicate Earlier(entered: seq<OrderId>, a: OrderId, b: OrderId) {
    exists i, j :: 0 <= i < j < |entered| && entered[i] == a && entered[j] == b
  }

  ghost predicate InTime(entered: seq<OrderId>, queue: seq<OrderId>) {
    forall i, j :: 0 <= i < j < |queue| ==> Earlier(entered, queue[i], queue[j])
  }

  ghost predicate AllInTime(w: World, entered: seq<OrderId>) {
    forall p, side, price :: InTime(entered, At(SideOf(w, p, side), price).orders)
  }

  lemma EarlierLater(entered: seq<OrderId>, a: OrderId, b: OrderId, id: OrderId)
    requires Earlier(entered, a, b)
    ensures Earlier(entered + [id], a, b)
  {
    var i, j :| 0 <= i < j < |entered| && entered[i] == a && entered[j] == b;
    assert (entered + [id])[i] == a && (entered + [id])[j] == b;
  }

  lemma EarlierNew(entered: seq<OrderId>, a: OrderId, id: OrderId)
    requires a in entered
    ensures Earlier(entered + [id], a, id)
  {
    var i :| 0 <= i < |entered| && entered[i] == a;
    assert (entered + [id])[i] == a && (entered + [id])[|entered|] == id;
  }

  lemma InTimeLater(entered: seq<OrderId>, queue: seq<OrderId>, id: OrderId)
    requires InTime(entered, queue)
    ensures InTime(entered + [id], queue)
  {
    hide Earlier;
    forall i, j | 0 <= i < j < |queue| ensures Earlier(entered + [id], queue[i], queue[j]) {
      EarlierLater(entered, queue[i], queue[j], id);
    }
  }

  /** The newest order may stand last. */
  lemma InTimeJoined(entered: seq<OrderId>, queue: seq<OrderId>, id: OrderId)
    requires InTime(entered, queue) && forall x <- queue :: x in entered
    ensures InTime(entered + [id], queue + [id])
  {
    hide Earlier;
    var queue' := queue + [id];
    forall i, j | 0 <= i < j < |queue'| ensures Earlier(entered + [id], queue'[i], queue'[j]) {
      if j < |queue| {
        EarlierLater(entered, queue[i], queue[j], id);
      } else {
        assert queue[i] in queue;
        EarlierNew(entered, queue[i], id);
      }
    }
  }

  lemma InTimeTail(entered: seq<OrderId>, queue: seq<OrderId>, later: seq<OrderId>)
    requires InTime(entered, queue) && TailOf(queue, later)
    ensures InTime(entered, later)
  {
    hide Earlier;
  }

  lemma InTimeWithout(entered: seq<OrderId>, pre: seq<OrderId>, id: OrderId, post: seq<OrderId>)
    requires InTime(entered, pre + [id] + post)
    ensures InTime(entered, pre + post)
  {
    hide Earlier;
    var queue, rest := pre + [id] + post, pre + post;
    forall i, j | 0 <= i < j < |rest| ensures Earlier(entered, rest[i], rest[j]) {
      var i', j' := if i < |pre| then i else i + 1, if j < |pre| then j else j + 1;
      assert rest[i] == queue[i'] && rest[j] == queue[j'];
    }
  }

  lemma InTimeRetained(entered: seq<OrderId>, queue: seq<OrderId>, id: OrderId)
    requires InTime(entered, queue) && NoDuplicates(queue)
    ensures InTime(entered, Retain(queue, id))
  {
    hide Earlier, Retain;
    if id in queue {
      var k :| 0 <= k < |queue| && queue[k] == id;
      assert queue == queue[..k] + [id] + queue[k + 1..];
      RetainExact(queue[..k], id, queue[k + 1..]);
      InTimeWithout(entered, queue[..k], id, queue[k + 1..]);
    } else {
      RetainOthers(queue, id);
    }
  }

  // ---------- Queues over time ----------

  /** What a level queues is stored, and only once. */
  lemma QueueStored(w: World, p: PairId, side: OrderType, price: Price)
    requires Coherent(w, {})
    ensures var queue := At(SideOf(w, p, side), price).orders;
            NoDuplicates(queue) && forall id <- queue :: id in w.orders
  {
    hide Orderly, PairsOk, OrdersOk, Backed, Listed, TradesOk, SideOk, SideSorted, SumBuy, SumSell, Resting;
    FoundNow(w, p, side, price);
    if HasLevel(SideOf(w, p, side), price) {
      var levels := SideOf(w, p, side);
      var i :| 0 <= i < |levels| && levels[i].price == price;
      SortedNow(w, p, side);
      AtLevel(side, levels, i);
      LevelNow(w, p, side, i);
    }
  }

  lemma OrderInTime(w: World, w': World, p: PairId, o: Order, entered: seq<OrderId>)
    requires Coherent(w, {}) && LimitOrderAt(w, w', p, o) && AllInTime(w, entered)
    requires forall x <- w.orders.Keys :: x in entered
    ensures AllInTime(w', entered + [o.id])
  {
    hide Coherent, At, SideOf, InTime, TakenSell, TakenBuy, DustAt;
    forall p', side, price ensures InTime(entered + [o.id], At(SideOf(w', p', side), price).orders) {
      var l, l' := At(SideOf(w, p', side), price), At(SideOf(w', p', side), price);
      assert InTime(entered, l.orders);
      InTimeLater(entered, l.orders, o.id);
      if p' == p && side == o.otype.Not() {
        assert LevelLeft(l, l', News(w, w'), price);
        LeftInTime(entered + [o.id], l, l', News(w, w'), price);
      } else if p' == p {
        assert side == o.otype;
        QueueStored(w, p, side, price);
        InTimeJoined(entered, l.orders, o.id);
        JoinedLast(l, o.id, w'.orders[o.id].remainedSell, w'.orders[o.id].remainedBuy);
      }
    }
  }

  lemma LeftInTime(entered: seq<OrderId>, l: Level, l': Level, trades: seq<Trade>, price: Price)
    requires InTime(entered, l.orders) && LevelLeft(l, l', trades, price)
    ensures InTime(entered, l'.orders)
  {
    hide Earlier, TakenSell, TakenBuy, DustAt;
    if l' != NoLevel(price) {
      InTimeTail(entered, l.orders, l'.orders);
    }
  }

  lemma CancelInTime(w: World, w': World, p: PairId, o: Order, entered: seq<OrderId>)
    requires Coherent(w, {}) && CancelAt(w, w', p, o) && AllInTime(w, entered)
    ensures AllInTime(w', entered)
  {
    hide Coherent, At, SideOf, InTime, Retain;
    forall p', side, price ensures InTime(entered, At(SideOf(w', p', side), price).orders) {
      var l := At(SideOf(w, p', side), price);
      assert InTime(entered, l.orders);
      QueueStored(w, p', side, price);
      InTimeRetained(entered, l.orders, o.id);
    }
  }

  lemma SameInTime(w: World, c: Call, entered: seq<OrderId>)
    requires !c.CreateLimitOrder? && !c.CancelLimitOrder? && AllInTime(w, entered)
    ensures AllInTime(Next(w, c), entered) && Next(w, c).orders == w.orders
  {
    hide At, SideOf, InTime;
    forall p, side, price ensures InTime(entered, At(SideOf(Next(w, c), p, side), price).orders) {
      NothingNew(w, c, p, side, price);
      assert InTime(entered, At(SideOf(w, p, side), price).orders);
    }
  }

  lemma MatchedKeys(w: World, p: PairId, o: Order)
    requires Coherent(w, {}) && Placeable(w, p, o) && Matched(w, p, o).Ok?
    ensures Matched(w, p, o).value.orders.Keys == w.orders.Keys + {o.id}
  {
    hide Coherent, Poised, Crossing, Match, OrderOk, Freeze, Enqueue, Place, SameTerms;
    PlaceKeeps(w, p, o);
    PlacedKeys(w, p, o);
    LogGrows(Place(w, p, o), p, o.id);
    EnqueueOrders(Match(Place(w, p, o), p, o.id), p, o.id);
  }

  lemma PlacedKeys(w: World, p: PairId, o: Order)
    requires Placeable(w, p, o)
    ensures Place(w, p, o).orders.Keys == w.orders.Keys + {o.id}
  {
    hide OrderOk, Freeze;
  }

  /** Every order is stored that was carried out, and was so once. */
  ghost predicate AllEntered(w: World, entered: seq<OrderId>) {
    (forall x :: x in w.orders <==> x in entered) && NoDuplicates(entered)
  }

  lemma EnteredOnce(w: World, w': World, entered: seq<OrderId>, id: OrderId)
    requires AllEntered(w, entered) && id !in w.orders && w'.orders.Keys == w.orders.Keys + {id}
    ensures AllEntered(w', entered + [id])
  {
    assert forall x :: x in w'.orders <==> x in w'.orders.Keys;
  }

  lemma NextInTime(w: World, c: Call, entered: seq<OrderId>)
    requires Coherent(w, {}) && Covered(w, c) && AllInTime(w, entered) && AllEntered(w, entered)
    ensures var entered' := entered + if c.CreateLimitOrder? && Perform(w, c).Ok? then [c.order] else [];
            AllInTime(Next(w, c), entered') && AllEntered(Next(w, c), entered')
  {
    hide Coherent, LimitOrderCall, CancelCall, Matched, Placeable, Admitted, OrderOf, SharesLevel, AllInTime,
      LimitOrderAt, CancelAt, TransferCall, TradePairCall, AllEntered;
    assert entered + [] == entered;
    match c
    case CreateLimitOrder(sender, base, quote, otype, price, sellAmount, order) =>
      if Perform(w, c).Ok? {
        CoherentParts(w);
        LimitOrderPlaced(w, sender, base, quote, otype, price, sellAmount, order);
        var p, o := w.pairOf[(base, quote)], OrderOf(sender, base, quote, otype, price, sellAmount, order);
        MatchedAt(w, p, o);
        MatchedKeys(w, p, o);
        KnownEntered(w, entered);
        OrderInTime(w, Next(w, c), p, o, entered);
        EnteredOnce(w, Next(w, c), entered, order);
      }
    case CancelLimitOrder(sender, order) =>
      if Perform(w, c).Ok? {
        CanceledAt(w, sender, order);
        var o := w.orders[order];
        CancelInTime(w, Next(w, c), w.pairOf[(o.base, o.quote)], o, entered);
        CancelOrders(w, sender, order);
        SameEntered(w, Next(w, c), entered);
      }
    case _ =>
      SameInTime(w, c, entered);
      SameEntered(w, Next(w, c), entered);
  }

  lemma CancelOrders(w: World, sender: AccountId, id: OrderId)
    requires Coherent(w, {}) && CancelCall(w, sender, id).Ok?
    ensures CancelCall(w, sender, id).value.orders.Keys == w.orders.Keys
  {
    hide Coherent, OrderOk, Unfreeze, LevelIndex, QueuedAt, CanceledLevel;
    CoherentParts(w);
    StoredNow(w, id);
  }

  lemma SameEntered(w: World, w': World, entered: seq<OrderId>)
    requires AllEntered(w, entered) && w'.orders.Keys == w.orders.Keys
    ensures AllEntered(w', entered)
  {
    assert forall x :: x in w'.orders <==> x in w'.orders.Keys;
  }

  lemma KnownEntered(w: World, entered: seq<OrderId>)
    requires AllEntered(w, entered)
    ensures forall x <- w.orders.Keys :: x in entered
  {
  }

  /** In every reachable state, the orders of each queue stand in the order in which their calls came. */
  lemma {:induction false} RunInTime(calls: seq<Call>)
    requires AllCovered(GENESIS, calls)
    ensures AllInTime(Run(GENESIS, calls), Entered(calls)) && AllEntered(Run(GENESIS, calls), Entered(calls))
  {
    hide Coherent, Covered, Next, Perform, AllInTime, AllEntered;
    if calls == [] {
      NothingEntered();
    } else {
      var before, c := calls[..|calls| - 1], calls[|calls| - 1];
      RunKeeps(before);
      RunInTime(before);
      NextInTime(Run(GENESIS, before), c, Entered(before));
    }
  }

  lemma NothingEntered()
    ensures AllInTime(GENESIS, []) && AllEntered(GENESIS, [])
  {
  }

  /** The same, level by level. */
  lemma LevelInTime(calls: seq<Call>, p: PairId, side: OrderType, i: nat, j: nat, k: nat)
    requires AllCovered(GENESIS, calls) && i < |SideOf(Run(GENESIS, calls), p, side)|
    requires j < k < |SideOf(Run(GENESIS, calls), p, side)[i].orders|
    ensures var queue := SideOf(Run(GENESIS, calls), p, side)[i].orders;
            NoDuplicates(Entered(calls)) && Earlier(Entered(calls), queue[j], queue[k])
  {
    hide Coherent, AllCovered, Run, Entered, SideSorted, Earlier;
    RunInTime(calls);
    RunKeeps(calls);
    var w := Run(GENESIS, calls);
    SortedNow(w, p, side);
    AtLevel(side, SideOf(w, p, side), i);
    assert InTime(Entered(calls), At(SideOf(w, p, side), SideOf(w, p, side)[i].price).orders);
  }

  // ---------- Who is traded with ----------

  /** Of the unfinished orders on one side of a pair, `m` has the best price, and came first at that price. */
  ghost predicate FirstInLine(w: World, entered: seq<OrderId>, p: Pair, side: OrderType, m: OrderId) {
    && m in w.orders && Resting(w.orders[m], p, side, w.orders[m].price)
    && forall x <- w.orders.Keys :: x != m && Resting(w.orders[x], p, side, w.orders[x].price) ==>
         || (if side.Buy? then w.orders[m].price > w.orders[x].price else w.orders[m].price < w.orders[x].price)
         || (w.orders[m].price == w.orders[x].price && Earlier(entered, m, x))
  }

  ghost predicate SideInTime(levels: seq<Level>, entered: seq<OrderId>) {
    forall price :: InTime(entered, At(levels, price).orders)
  }

  lemma StepInTime(levels: seq<Level>, levels': seq<Level>, t: Trade, entered: seq<OrderId>)
    requires SideStep(levels, levels', t) && SideInTime(levels, entered)
    ensures SideInTime(levels', entered)
  {
    hide At, Earlier;
    forall price ensures InTime(entered, At(levels', price).orders) {
      assert InTime(entered, At(levels, price).orders) && LevelAfter(At(levels, price), At(levels', price), t, price);
    }
  }

  /** The first order of the best level is the first in line. */
  lemma FrontInLine(w: World, p: PairId, id: OrderId, entered: seq<OrderId>)
    requires p in w.books && id in w.orders && Poised(w, p, id) && Crossing(w, p, id)
    requires SideInTime(Opposite(w, p, id), entered)
    ensures p in w.pairs && Opposite(w, p, id) != [] && Opposite(w, p, id)[0].orders != []
    ensures FirstInLine(w, entered, w.pairs[p], w.orders[id].otype.Not(), Front(w, p, id))
  {
    hide Poised, LevelOk, StoredOk, Earlier, At, NotQueued, Orderly, Backed, TradesOk, BookOk, SideSorted;
    FrontFacts(w, p, id);
    PoisedSides(w, p, id);
    PoisedOrder(w, p, id);
    var side, levels, m := w.orders[id].otype.Not(), Opposite(w, p, id), Front(w, p, id);
    forall x <- w.orders.Keys | x != m && Resting(w.orders[x], w.pairs[p], side, w.orders[x].price)
      ensures Better(side, w.orders[m].price, w.orders[x].price) ||
              (w.orders[m].price == w.orders[x].price && Earlier(entered, m, x))
    {
      var i := FoundQueued(w, p, id, x);
      BehindFront(levels, side, entered, i, x);
    }
  }

  /** The level in which an unfinished order of the other side waits. */
  lemma FoundQueued(w: World, p: PairId, id: OrderId, x: OrderId) returns (i: nat)
    requires p in w.books && id in w.orders && Poised(w, p, id) && p in w.pairs && x in w.orders
    requires Resting(w.orders[x], w.pairs[p], w.orders[id].otype.Not(), w.orders[x].price)
    ensures i < |Opposite(w, p, id)| && Opposite(w, p, id)[i].price == w.orders[x].price
    ensures x in Opposite(w, p, id)[i].orders
  {
    hide Orderly, OrderOk, Backed, BooksOk, TradesOk, NotQueued;
    assert PairOk(w, p) && StoredOk(w, x) && x != id;
    assert Queued(w, w.orders[x]);
    var j :| QueuedAt(w.books[p].Side(w.orders[x].otype), j, w.orders[x]);
    i := j;
  }

  lemma BehindFront(levels: seq<Level>, side: OrderType, entered: seq<OrderId>, i: nat, x: OrderId)
    requires SideSorted(side, levels) && i < |levels| && x in levels[i].orders && SideInTime(levels, entered)
    requires levels[0].orders != [] && x != levels[0].orders[0]
    ensures if i == 0 then Earlier(entered, levels[0].orders[0], x)
            else Better(side, levels[0].price, levels[i].price)
  {
    hide Earlier, At;
    if i == 0 {
      AtLevel(side, levels, 0);
      assert InTime(entered, At(levels, levels[0].price).orders);
      var k :| 0 <= k < |levels[0].orders| && levels[0].orders[k] == x;
    }
  }

  /** Each trade until the order rests is with the resting order that is the first in line then. */
  ghost predicate Timely(w: World, entered: seq<OrderId>, p: PairId, id: OrderId)
    requires p in w.books && id in w.orders
    decreases !w.orders[id].status.Filled?, |Priority(Opposite(w, p, id))|
  {
    MayTrade(w, p, id) ==>
      && TradeOnce(w, p, id).trades != [] && p in w.pairs
      && FirstInLine(w, entered, w.pairs[p], w.orders[id].otype.Not(), LastTrade(TradeOnce(w, p, id)).maker)
      && (Progresses(w, TradeOnce(w, p, id), p, id) ==> Timely(TradeOnce(w, p, id), entered, p, id))
  }

  lemma {:induction false} MatchTimely(w: World, entered: seq<OrderId>, p: PairId, id: OrderId)
    requires p in w.books && id in w.orders && Poised(w, p, id) && SideInTime(Opposite(w, p, id), entered)
    ensures Timely(w, entered, p, id)
    decreases !w.orders[id].status.Filled?, |Priority(Opposite(w, p, id))|
  {
    hide Poised, Crossing, CanTrade, TradeOnce, Priority, Opposite, SameTerms, SideInTime, SideStep, FirstInLine,
      Progresses;
    if MayTrade(w, p, id) {
      FrontInLine(w, p, id, entered);
      TradeProgress(w, p, id);
      TradeStep(w, p, id);
      StepInTime(Opposite(w, p, id), Opposite(TradeOnce(w, p, id), p, id), LastTrade(TradeOnce(w, p, id)), entered);
      MatchTimely(TradeOnce(w, p, id), entered, p, id);
    }
  }

  /** After any run, a new order trades, one by one, with the resting orders that have the best price and, at that
      price, came in first. */
  lemma TradesInTime(calls: seq<Call>, p: PairId, o: Order)
    requires AllCovered(GENESIS, calls) && Placeable(Run(GENESIS, calls), p, o)
    ensures var placed := Place(Run(GENESIS, calls), p, o);
            p in placed.books && o.id in placed.orders && Timely(placed, Entered(calls), p, o.id)
  {
    hide Coherent, AllCovered, Run, OrderOk, Freeze, Place, Poised, Timely, InTime;
    var w := Run(GENESIS, calls);
    RunKeeps(calls);
    RunInTime(calls);
    PlaceKeeps(w, p, o);
    PlacedPrice(w, p, o);
    PlacedSides(w, p, o);
    assert Opposite(Place(w, p, o), p, o.id) == SideOf(w, p, o.otype.Not());
    MatchTimely(Place(w, p, o), Entered(calls), p, o.id);
  }
}

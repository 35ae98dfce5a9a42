/** What filled orders leave of their levels' sell amounts: the list takes off what was traded, not what was
    unfrozen besides. */
module Dust {
  import opened Base
  import opened Orders
  import opened Ledger
  import opened Books
  import opened Settlement
  import opened World
  import opened Matching
  import opened TradeInvariants
  import opened Engine
  import opened Reductions
  import opened Operations
  import opened Transitions
  import opened Aggregates

  /** A level that wants and offers exactly what its orders do. */
  ghost predicate LevelExact(l: Level) {
    l.shortBuy == 0 && l.extraSell == 0
  }

  ghost predicate SideExact(levels: seq<Level>) {
    forall i :: 0 <= i < |levels| ==> LevelExact(levels[i])
  }

  ghost predicate AllExact(w: World) {
    forall p <- w.books.Keys :: SideExact(w.books[p].bids) && SideExact(w.books[p].asks)
  }

  // ---------- One trade ----------

  /** A level that survives a trade stays exact if and only if the trade does not fill the resting order for
      less than it still offered. */
  lemma TradeDustExact(w: World, p: PairId, id: OrderId)
    requires p in w.books && id in w.orders && Poised(w, p, id) && MayTrade(w, p, id)
    requires Opposite(w, p, id) != [] && LevelExact(Opposite(w, p, id)[0])
    requires Opposite(w, p, id)[0].orders != [] && Front(w, p, id) in w.orders
    ensures p in TradeOnce(w, p, id).books && id in TradeOnce(w, p, id).orders
    ensures var levels, levels' := Opposite(w, p, id), Opposite(TradeOnce(w, p, id), p, id);
            var maker, f := w.orders[Front(w, p, id)], SettledFront(w, p, id).fill;
            levels' != [] && levels'[0].price == levels[0].price ==>
              (LevelExact(levels'[0])
               <==> !(HaveOf(f, maker.otype) == maker.remainedBuy && GiveOf(f, maker.otype) < maker.remainedSell))
  {
    hide Poised, Crossing, CanTrade, TradeOnce, Settle, SameTerms, OrderOk, NotQueued, LevelOk, FillFits, Priority;
    PoisedSides(w, p, id);
    TradeProgress(w, p, id);
    TradeIsTraded(w, p, id);
    TermsOf(w, TradeOnce(w, p, id), id);
    FitsMirrored(SettledFront(w, p, id).fill, w.orders[id], w.orders[Front(w, p, id)]);
  }

  // ---------- A whole limit order ----------

  /** The match filled a resting order that did not need all of its offer, at a price at which the opposite
      side still has a level. */
  ghost predicate LeavesDust(w: World, m: World, p: PairId, id: OrderId)
    requires p in m.books && id in m.orders
  {
    exists i :: |w.trades| <= i < |m.trades| &&
      HasLevel(Opposite(m, p, id), m.trades[i].price) && 0 < m.trades[i].makerBack
  }

  lemma {:induction false} DustPositive(trades: seq<Trade>, price: Price)
    ensures 0 < DustAt(trades, price) <==> exists t <- trades :: t.price == price && 0 < t.makerBack
  {
    if trades != [] {
      DustPositive(trades[1..], price);
      assert forall t :: t in trades <==> t == trades[0] || t in trades[1..];
    }
  }

  lemma DustIn(w: World, m: World, p: PairId, id: OrderId)
    requires p in m.books && id in m.orders && |w.trades| <= |m.trades|
    ensures LeavesDust(w, m, p, id) <==>
            exists t <- News(w, m) :: HasLevel(Opposite(m, p, id), t.price) && 0 < t.makerBack
  {
    hide HasLevel, Opposite;
    var news := News(w, m);
    forall i | |w.trades| <= i < |m.trades| ensures m.trades[i] in news {
      assert news[i - |w.trades|] == m.trades[i];
    }
    forall t <- news ensures exists i :: |w.trades| <= i < |m.trades| && m.trades[i] == t {
      var k :| 0 <= k < |news| && news[k] == t;
      assert m.trades[|w.trades| + k] == t;
    }
  }

  lemma DustFront(side: OrderType, levels: seq<Level>, levels': seq<Level>, trades: seq<Trade>)
    requires SideSorted(side, levels) && SideSorted(side, levels') && SideExact(levels)
    requires SideLeft(levels, levels', trades)
    requires forall i :: 0 <= i < |levels'| ==> levels'[i].orders != []
    ensures SideExact(levels') <==> !exists t <- trades :: HasLevel(levels', t.price) && 0 < t.makerBack
  {
    hide SideSorted, SideExact, SideLeft;
    forall i | 0 <= i < |levels'|
      ensures LevelExact(levels'[i]) <==> DustAt(trades, levels'[i].price) == 0
    {
      DustOf(side, levels, levels', trades, i);
    }
    if SideExact(levels') {
      forall t <- trades | HasLevel(levels', t.price) ensures t.makerBack == 0 {
        var i :| 0 <= i < |levels'| && levels'[i].price == t.price;
        LevelOfExact(levels', i);
        DustPositive(trades, t.price);
      }
    } else {
      var i := NotExact(levels');
      DustPositive(trades, levels'[i].price);
    }
  }

  lemma DustOf(side: OrderType, levels: seq<Level>, levels': seq<Level>, trades: seq<Trade>, i: nat)
    requires SideSorted(side, levels') && SideExact(levels) && SideLeft(levels, levels', trades)
    requires i < |levels'| && levels'[i].orders != []
    ensures LevelExact(levels'[i]) <==> DustAt(trades, levels'[i].price) == 0
  {
    hide SideSorted;
    var q := levels'[i].price;
    AtLevel(side, levels', i);
    AtExact(levels, q);
    assert LevelLeft(At(levels, q), At(levels', q), trades, q);
  }

  lemma {:induction false} AtExact(levels: seq<Level>, price: Price)
    requires SideExact(levels)
    ensures LevelExact(At(levels, price))
  {
    if levels != [] {
      AtExact(levels[1..], price);
    }
  }

  lemma LevelOfExact(levels: seq<Level>, i: nat)
    requires SideExact(levels) && i < |levels|
    ensures LevelExact(levels[i])
  {
  }

  lemma NotExact(levels: seq<Level>) returns (i: nat)
    requires !SideExact(levels)
    ensures i < |levels| && !LevelExact(levels[i])
  {
    i :| 0 <= i < |levels| && !LevelExact(levels[i]);
  }

  /** A match leaves the side that it trades with exact if and only if it leaves no dust. */
  lemma MatchDustExact(w: World, p: PairId, id: OrderId)
    requires p in w.books && id in w.orders && Poised(w, p, id) && SideExact(Opposite(w, p, id))
    ensures SideExact(Opposite(Match(w, p, id), p, id)) <==> !LeavesDust(w, Match(w, p, id), p, id)
  {
    hide Poised, Match, Opposite, SideExact, HasLevel, LeavesDust, SideLeft, SameTerms, SideSorted, LevelOk;
    var m := Match(w, p, id);
    MatchLeaves(w, p, id);
    MatchStops(w, p, id);
    LogGrows(w, p, id);
    TermsOf(w, m, id);
    PoisedSides(w, p, id);
    PoisedSides(m, p, id);
    forall i | 0 <= i < |Opposite(m, p, id)| ensures Opposite(m, p, id)[i].orders != [] {
      QueueNotEmpty(m.orders, m.pairs[p], m.orders[id].otype.Not(), Opposite(m, p, id)[i]);
    }
    DustFront(w.orders[id].otype.Not(), Opposite(w, p, id), Opposite(m, p, id), News(w, m));
    DustIn(w, m, p, id);
  }

  lemma SidesExact(w: World, p: PairId, side: OrderType)
    requires AllExact(w) && p in w.books
    ensures SideExact(w.books[p].Side(side)) && SideExact(w.books[p].Side(side.Not()))
  {
    hide SideExact;
  }

  lemma ElsewhereExact(w: World, m: World, p: PairId, side: OrderType)
    requires AllExact(w) && p in w.books && p in m.books && OnlySide(w, m, p, side)
    ensures AllExact(m) <==> SideExact(m.books[p].Side(side))
    ensures SideExact(m.books[p].Side(side.Not()))
  {
    hide SideExact;
    SidesExact(w, p, side);
    assert p in m.books.Keys;
  }

  lemma EnqueueExact(w: World, p: PairId, id: OrderId)
    requires p in w.books && id in w.orders && SideExact(w.books[p].Side(w.orders[id].otype))
    ensures AllExact(Enqueue(w, p, id)) <==> AllExact(w)
  {
    var w', o := Enqueue(w, p, id), w.orders[id];
    EnqueuedExact(o, w.books[p].Side(o.otype));
    hide SideExact, Enqueued;
    assert p in w'.books.Keys && p in w.books.Keys;
    assert w'.books[p].Side(o.otype.Not()) == w.books[p].Side(o.otype.Not());
    assert forall q <- w.books.Keys :: q != p ==> w'.books[q] == w.books[q];
    assert w'.books.Keys == w.books.Keys;
  }

  lemma EnqueuedExact(o: Order, levels: seq<Level>)
    requires SideExact(levels)
    ensures SideExact(Enqueued(o.otype, levels, o.price, o.id, o.remainedSell, o.remainedBuy))
  {
  }

  lemma PlaceExact(w: World, p: PairId, o: Order)
    requires AllExact(w) && Placeable(w, p, o)
    ensures AllExact(Place(w, p, o))
  {
    hide OrderOk, Freeze;
  }

  /** A limit order that is carried out leaves all amounts exact if and only if it leaves no dust. */
  lemma MatchedDustExact(w: World, p: PairId, o: Order)
    requires Coherent(w, {}) && AllExact(w) && Placeable(w, p, o) && Matched(w, p, o).Ok?
    ensures p in Place(w, p, o).books && o.id in Place(w, p, o).orders
    ensures AllExact(Matched(w, p, o).value) <==>
            !LeavesDust(Place(w, p, o), Match(Place(w, p, o), p, o.id), p, o.id)
  {
    hide Coherent, Poised, Crossing, Match, OrderOk, Freeze, Enqueue, AllExact, SideExact, Place, LeavesDust, OnlySide;
    PlaceKeeps(w, p, o);
    PlaceExact(w, p, o);
    PlacedPrice(w, p, o);
    var placed := Place(w, p, o);
    var m := Match(placed, p, o.id);
    SidesExact(placed, p, o.otype);
    MatchDustExact(placed, p, o.id);
    MatchOnlySide(placed, p, o.id);
    LogGrows(placed, p, o.id);
    TermsOf(placed, m, o.id);
    ElsewhereExact(placed, m, p, o.otype.Not());
    EnqueueExact(m, p, o.id);
  }

  lemma CancelExact(w: World, sender: AccountId, id: OrderId)
    requires Coherent(w, {}) && AllExact(w) && CancelCall(w, sender, id).Ok?
    ensures id in w.orders && (AllExact(CancelCall(w, sender, id).value) <==> w.orders[id].status.Created?)
  {
    hide Coherent, OrderOk, CancelCall, LevelIndex, CanceledLevel, AllExact, SideExact, OnlySide;
    CanceledBooks(w, sender, id);
    var o := w.orders[id];
    var p, w' := w.pairOf[(o.base, o.quote)], CancelCall(w, sender, id).value;
    var levels, i := w.books[p].Side(o.otype), LevelIndex(w, p, o);
    SidesExact(w, p, o.otype);
    CanceledExact(levels, i, o);
    CanceledSide(w, w', p, o.otype, levels[i := CanceledLevel(levels[i], o)]);
    ElsewhereExact(w, w', p, o.otype);
  }

  lemma CanceledExact(levels: seq<Level>, i: nat, o: Order)
    requires SideExact(levels) && i < |levels| && OrderOk(o) && !o.IsFinished()
    ensures SideExact(levels[i := CanceledLevel(levels[i], o)]) <==> o.status.Created?
  {
    hide OrderOk, Retain;
    CreatedUntouched(o);
    var levels' := levels[i := CanceledLevel(levels[i], o)];
    assert levels'[i] == CanceledLevel(levels[i], o);
  }

  lemma CanceledSide(w: World, w': World, p: PairId, side: OrderType, levels: seq<Level>)
    requires p in w.books && w'.books == w.books[p := w.books[p].WithSide(side, levels)]
    ensures OnlySide(w, w', p, side) && w'.books[p].Side(side) == levels
  {
  }

  // ---------- Whole runs ----------

  /** A call that, if it is carried out, leaves no dust and cancels no traded order. */
  ghost predicate Clean(w: World, c: Call) {
    Perform(w, c).Ok? ==>
      match c
      case CreateLimitOrder(sender, base, quote, otype, price, sellAmount, id) =>
        Admitted(w, sender, base, quote, otype, price, sellAmount) ==>
          var p, o := w.pairOf[(base, quote)], OrderOf(sender, base, quote, otype, price, sellAmount, id);
          var placed := Place(w, p, o);
          !LeavesDust(placed, Match(placed, p, id), p, id)
      case CancelLimitOrder(_, id) => id in w.orders ==> w.orders[id].status.Created?
      case _ => true
  }

  /** A covered call leaves all amounts exact if and only if it is clean. */
  lemma NextExact(w: World, c: Call)
    requires Coherent(w, {}) && Covered(w, c) && AllExact(w)
    ensures AllExact(Next(w, c)) <==> Clean(w, c)
  {
    hide Coherent, SharesLevel, LimitOrderCall, CancelCall, Matched, Placeable, Admitted, OrderOf, LeavesDust, Place;
    if Perform(w, c).Ok? {
      match c
      case CreateLimitOrder(sender, base, quote, otype, price, sellAmount, order) =>
        hide AllExact;
        CoherentParts(w);
        LimitOrderPlaced(w, sender, base, quote, otype, price, sellAmount, order);
        MatchedDustExact(w, w.pairOf[(base, quote)], OrderOf(sender, base, quote, otype, price, sellAmount, order));
      case CancelLimitOrder(sender, order) =>
        hide AllExact;
        CancelExact(w, sender, order);
      case _ =>
    }
  }

  ghost predicate AllClean(calls: seq<Call>) {
    calls == [] ||
    (AllClean(calls[..|calls| - 1]) && Clean(Run(GENESIS, calls[..|calls| - 1]), calls[|calls| - 1]))
  }

  /** Over all runs of clean calls, every level wants and offers exactly what its orders do. */
  lemma {:induction false} RunExact(calls: seq<Call>)
    requires AllCovered(GENESIS, calls) && AllClean(calls)
    ensures AllExact(Run(GENESIS, calls))
  {
    hide Coherent, Covered, Clean, Perform, Next, AllExact;
    if calls == [] {
      NothingExact();
    } else {
      var before := calls[..|calls| - 1];
      RunKeeps(before);
      RunExact(before);
      NextExact(Run(GENESIS, before), calls[|calls| - 1]);
    }
  }

  lemma NothingExact()
    ensures AllExact(GENESIS)
  {
  }

  /** Where all amounts are exact and nobody has traded with himself, what a level stores as offered is what
      its orders offer. */
  lemma OffersStored(w: World, p: PairId, side: OrderType, i: nat)
    requires Inv(w) && AllExact(w) && p in w.books && i < |w.books[p].Side(side)|
    ensures var l := w.books[p].Side(side)[i];
            && (forall id <- l.orders :: id in w.orders)
            && NodeOf(l).sellAmount == SumSell(w.orders, l.orders)
  {
    hide Inv, Standing, AllExact, NodeOf, SumSell, SumBuy;
    SidesExact(w, p, side);
    InvStanding(w);
    StoredExact(w, p, side, i);
  }
}

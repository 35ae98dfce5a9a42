/** The amounts of the levels over whole runs: what is on their record, and when none of what is stored has
    wrapped. */
module Records {
  import opened Base
  import opened Words
  import opened Orders
  import opened FillMath
  import opened Ledger
  import opened Books
  import opened Settlement
  import opened World
  import opened Matching
  import opened Engine
  import opened Operations
  import opened Transitions
  import opened Reductions
  import opened Aggregates

  /** The levels of one side of a pair's book, which has none before the pair's first order. */
  function SideOf(w: World, p: PairId, side: OrderType): seq<Level> {
    if p in w.books then w.books[p].Side(side) else []
  }

  // ---------- What the calls do to the level at one price ----------

  lemma {:induction false} EnqueuedAt(side: OrderType, levels: seq<Level>, price: Price, id: OrderId, sell: nat,
                                      buy: nat, q: Price)
    requires SideSorted(side, levels)
    ensures At(Enqueued(side, levels, price, id, sell, buy), q)
         == if q == price then Joined(At(levels, price), id, sell, buy) else At(levels, q)
  {
    if levels == [] || !Better(side, levels[0].price, price) {
      EnqueuedInFront(side, levels, price, id, sell, buy, q);
    } else {
      EnqueuedAt(side, levels[1..], price, id, sell, buy, q);
      EnqueuedBehind(side, levels, price, id, sell, buy);
    }
  }

  lemma EnqueuedInFront(side: OrderType, levels: seq<Level>, price: Price, id: OrderId, sell: nat, buy: nat, q: Price)
    requires SideSorted(side, levels) && (levels == [] || !Better(side, levels[0].price, price))
    ensures At(Enqueued(side, levels, price, id, sell, buy), q)
         == if q == price then Joined(At(levels, price), id, sell, buy) else At(levels, q)
  {
    var levels' := Enqueued(side, levels, price, id, sell, buy);
    if levels == [] || levels[0].price != price {
      forall i | 0 <= i < |levels| ensures levels[i].price != price {
        assert i == 0 || Better(side, levels[0].price, levels[i].price);
      }
      AtNone(levels, price);
      assert levels'[1..] == levels;
    } else {
      assert levels'[1..] == levels[1..];
    }
  }

  lemma EnqueuedBehind(side: OrderType, levels: seq<Level>, price: Price, id: OrderId, sell: nat, buy: nat)
    requires levels != [] && Better(side, levels[0].price, price)
    ensures Enqueued(side, levels, price, id, sell, buy)
         == [levels[0]] + Enqueued(side, levels[1..], price, id, sell, buy)
  {
    var rest, i := levels[1..], InsertIndex(side, levels[1..], price);
    assert InsertIndex(side, levels, price) == 1 + i;
    hide InsertIndex;
    if i < |rest| && rest[i].price == price {
      assert levels[1 + i] == rest[i];
      assert levels[1 + i := Joined(rest[i], id, sell, buy)] == [levels[0]] + rest[i := Joined(rest[i], id, sell, buy)];
    } else {
      var l := LevelOf(price, buy, sell, id);
      assert Links.With(levels, 1 + i, l) == [levels[0]] + Links.With(rest, i, l);
    }
  }

  lemma {:induction false} UpdatedAt(side: OrderType, levels: seq<Level>, i: nat, l: Level, q: Price)
    requires SideSorted(side, levels) && i < |levels| && l.price == levels[i].price
    ensures At(levels[i := l], q) == if q == l.price then l else At(levels, q)
  {
    if i == 0 {
      assert levels[i := l][1..] == levels[1..];
    } else {
      assert Better(side, levels[0].price, levels[i].price);
      UpdatedAt(side, levels[1..], i - 1, l, q);
      assert levels[i := l][1..] == levels[1..][i - 1 := l];
    }
  }

  /** A limit order that is carried out: what it leaves of the other side, and queues on its own. */
  ghost predicate LimitOrderAt(w: World, w': World, p: PairId, o: Order) {
    && o.id in w'.orders
    && SideLeft(SideOf(w, p, o.otype.Not()), SideOf(w', p, o.otype.Not()), News(w, w'))
    && (forall q :: At(SideOf(w', p, o.otype), q) ==
          if q == o.price && !w'.orders[o.id].status.Filled? then
            Joined(At(SideOf(w, p, o.otype), q), o.id, w'.orders[o.id].remainedSell, w'.orders[o.id].remainedBuy)
          else At(SideOf(w, p, o.otype), q))
    && (forall p', side :: p' != p ==> SideOf(w', p', side) == SideOf(w, p', side))
    && (forall t <- News(w, w') :: t.pair == p && t.otype == o.otype)
  }

  lemma PlacedSides(w: World, p: PairId, o: Order)
    requires Placeable(w, p, o)
    ensures forall p', side :: SideOf(Place(w, p, o), p', side) == SideOf(w, p', side)
    ensures p in Place(w, p, o).books && Place(w, p, o).trades == w.trades
  {
    hide OrderOk, Freeze;
  }

  lemma OwnSide(w: World, p: PairId, id: OrderId)
    requires p in w.books && id in w.orders && Poised(w, p, id)
    ensures SideSorted(w.orders[id].otype, w.books[p].Side(w.orders[id].otype))
  {
    hide Orderly, PairsOk, OrdersOk, Backed, Listed, TradesOk, NotQueued, SideOk, SideSorted;
    assert BookOk(w.orders, w.pairs[p], w.books[p]);
  }

  lemma EnqueueAt(w: World, p: PairId, id: OrderId)
    requires p in w.books && id in w.orders && SideSorted(w.orders[id].otype, SideOf(w, p, w.orders[id].otype))
    ensures var w', o := Enqueue(w, p, id), w.orders[id];
            && (forall q :: At(SideOf(w', p, o.otype), q) ==
                  if q == o.price then Joined(At(SideOf(w, p, o.otype), q), id, o.remainedSell, o.remainedBuy)
                  else At(SideOf(w, p, o.otype), q))
            && SideOf(w', p, o.otype.Not()) == SideOf(w, p, o.otype.Not())
            && (forall p', side :: p' != p ==> SideOf(w', p', side) == SideOf(w, p', side))
            && w'.orders == w.orders && w'.trades == w.trades
  {
    hide SideSorted, Enqueued;
    var w', o := Enqueue(w, p, id), w.orders[id];
    forall q ensures At(SideOf(w', p, o.otype), q) ==
                     if q == o.price then Joined(At(SideOf(w, p, o.otype), q), id, o.remainedSell, o.remainedBuy)
                     else At(SideOf(w, p, o.otype), q)
    {
      EnqueuedAt(o.otype, SideOf(w, p, o.otype), o.price, id, o.remainedSell, o.remainedBuy, q);
    }
  }

  lemma SidesUnchanged(w: World, w': World, p: PairId, side: OrderType)
    requires p in w.books && OnlySide(w, w', p, side)
    ensures SideOf(w', p, side.Not()) == SideOf(w, p, side.Not())
    ensures forall p', side' :: p' != p ==> SideOf(w', p', side') == SideOf(w, p', side')
  {
    assert p in w'.books.Keys;
  }

  lemma MatchedAt(w: World, p: PairId, o: Order)
    requires Coherent(w, {}) && Placeable(w, p, o) && Matched(w, p, o).Ok?
    ensures LimitOrderAt(w, Matched(w, p, o).value, p, o)
  {
    hide Coherent, Poised, Crossing, Match, OrderOk, Freeze, Enqueue, Place, SideLeft, SideSorted, OnlySide;
    PlaceKeeps(w, p, o);
    PlacedPrice(w, p, o);
    PlacedSides(w, p, o);
    var placed := Place(w, p, o);
    var m := Match(placed, p, o.id);
    MatchLeaves(placed, p, o.id);
    MatchOnlySide(placed, p, o.id);
    MatchStops(placed, p, o.id);
    NewsOf(placed, p, o.id);
    LogGrows(placed, p, o.id);
    SidesUnchanged(placed, m, p, o.otype.Not());
    OwnSide(m, p, o.id);
    EnqueueAt(m, p, o.id);
    NotTwice(o.otype);
  }

  lemma NotTwice(side: OrderType)
    ensures side.Not().Not() == side && side.Not() != side
  {
  }

  /** A cancellation: what it leaves of the level that the order waited in. */
  ghost predicate CancelAt(w: World, w': World, p: PairId, o: Order) {
    && (forall q :: At(SideOf(w', p, o.otype), q) ==
          if q == o.price then CanceledLevel(At(SideOf(w, p, o.otype), q), o) else At(SideOf(w, p, o.otype), q))
    && (forall p', side :: p' != p || side != o.otype ==> SideOf(w', p', side) == SideOf(w, p', side))
    && w'.trades == w.trades
  }

  lemma CanceledAt(w: World, sender: AccountId, id: OrderId)
    requires Coherent(w, {}) && CancelCall(w, sender, id).Ok?
    ensures id in w.orders && (w.orders[id].base, w.orders[id].quote) in w.pairOf
    ensures OrderOk(w.orders[id]) && !w.orders[id].IsFinished()
    ensures var o := w.orders[id];
            CancelAt(w, CancelCall(w, sender, id).value, w.pairOf[(o.base, o.quote)], o)
  {
    hide Coherent, OrderOk, CancelCall, LevelIndex, CanceledLevel, SideSorted, At, CancelAt;
    CanceledBooks(w, sender, id);
    var o := w.orders[id];
    var p := w.pairOf[(o.base, o.quote)];
    var levels, i := w.books[p].Side(o.otype), LevelIndex(w, p, o);
    SortedNow(w, p, o.otype);
    Replaced(w, CancelCall(w, sender, id).value, p, o.otype, levels[i := CanceledLevel(levels[i], o)]);
    CanceledPrice(levels[i], o);
    AtLevel(o.otype, levels, i);
    forall q ensures At(levels[i := CanceledLevel(levels[i], o)], q) ==
                     if q == o.price then CanceledLevel(At(levels, q), o) else At(levels, q)
    {
      UpdatedAt(o.otype, levels, i, CanceledLevel(levels[i], o), q);
    }
    CancelLog(w, sender, id);
    ReplacedAt(w, CancelCall(w, sender, id).value, p, o, levels[i := CanceledLevel(levels[i], o)]);
  }

  lemma ReplacedAt(w: World, w': World, p: PairId, o: Order, levels: seq<Level>)
    requires p in w.books && SideOf(w', p, o.otype) == levels && w'.trades == w.trades
    requires forall p', side :: p' != p || side != o.otype ==> SideOf(w', p', side) == SideOf(w, p', side)
    requires forall q :: At(levels, q) ==
               if q == o.price then CanceledLevel(At(SideOf(w, p, o.otype), q), o) else At(SideOf(w, p, o.otype), q)
    ensures CancelAt(w, w', p, o)
  {
    hide At, CanceledLevel;
  }

  lemma Replaced(w: World, w': World, p: PairId, side: OrderType, levels: seq<Level>)
    requires p in w.books && w'.books == w.books[p := w.books[p].WithSide(side, levels)]
    ensures SideOf(w', p, side) == levels
    ensures forall p', side' :: p' != p || side' != side ==> SideOf(w', p', side') == SideOf(w, p', side')
  {
  }

  lemma CancelLog(w: World, sender: AccountId, id: OrderId)
    requires CancelCall(w, sender, id).Ok?
    ensures CancelCall(w, sender, id).value.trades == w.trades
  {
  }

  lemma CanceledPrice(l: Level, o: Order)
    ensures CanceledLevel(l, o).price == l.price
  {
  }

  lemma SortedNow(w: World, p: PairId, side: OrderType)
    requires Coherent(w, {}) && p in w.books
    ensures SideSorted(side, w.books[p].Side(side))
  {
    hide Orderly, PairsOk, OrdersOk, Backed, Listed, TradesOk, SideOk, SideSorted;
    assert BookOk(w.orders, w.pairs[p], w.books[p]);
  }

  // ---------- What is on record ----------

  /** How far a level's amounts are from what its orders offer and want. */
  datatype Record = Record(extraSell: int, shortBuy: int)

  function RecordOf(l: Level): Record {
    Record(l.extraSell, l.shortBuy)
  }

  /** What the resting orders of some trades, on one side of a pair and at one price, did not need. */
  function DustOn(trades: seq<Trade>, p: PairId, side: OrderType, price: Price): nat {
    if trades == [] then 0 else
      var t := trades[0];
      DustOn(trades[1..], p, side, price) +
      if t.pair == p && t.otype.Not() == side && t.price == price then t.makerBack else 0
  }

  /** A call that cancels an order waiting on one side of a pair at one price. */
  predicate Cancels(w: World, c: Call, p: PairId, side: OrderType, price: Price) {
    && c.CancelLimitOrder? && CancelCall(w, c.sender, c.order).Ok?
    && var o := w.orders[c.order];
       w.pairOf[(o.base, o.quote)] == p && o.otype == side && o.price == price
  }

  /** The record of a level after a call: what filled orders did not need is offered in excess; a canceled order
      takes off, too much, what it had given and gotten. */
  function NextRecord(r: Record, w: World, c: Call, p: PairId, side: OrderType, price: Price): Record {
    if Cancels(w, c, p, side, price) then
      var o := w.orders[c.order];
      Record(r.extraSell - (o.sellAmount - o.remainedSell), r.shortBuy + (o.buyAmount - o.remainedBuy))
    else
      r.(extraSell := r.extraSell + DustOn(News(w, Next(w, c)), p, side, price))
  }

  /** The record of a level by the trade log and the cancellations, since the level was opened. */
  ghost function Recorded(calls: seq<Call>, p: PairId, side: OrderType, price: Price): Record {
    if calls == [] then Record(0, 0) else
      var before, c := calls[..|calls| - 1], calls[|calls| - 1];
      if !HasLevel(SideOf(Run(GENESIS, calls), p, side), price) then Record(0, 0)
      else NextRecord(Recorded(before, p, side, price), Run(GENESIS, before), c, p, side, price)
  }

  lemma {:induction false} DustOnIs(trades: seq<Trade>, p: PairId, otype: OrderType, p': PairId, side: OrderType,
                                    price: Price)
    requires forall t <- trades :: t.pair == p && t.otype == otype
    ensures DustOn(trades, p', side, price) == if p' == p && side == otype.Not() then DustAt(trades, price) else 0
  {
    if trades != [] {
      DustOnIs(trades[1..], p, otype, p', side, price);
    }
  }

  lemma OrderRecorded(w: World, w': World, p: PairId, o: Order, p': PairId, side: OrderType, price: Price)
    requires LimitOrderAt(w, w', p, o) && At(SideOf(w', p', side), price).orders != []
    ensures var r, r' := RecordOf(At(SideOf(w, p', side), price)), RecordOf(At(SideOf(w', p', side), price));
            r' == r.(extraSell := r.extraSell + DustOn(News(w, w'), p', side, price))
  {
    hide At, DustOn, DustAt, TakenSell, TakenBuy;
    DustOnIs(News(w, w'), p, o.otype, p', side, price);
    if p' == p && side == o.otype.Not() {
      assert LevelLeft(At(SideOf(w, p, side), price), At(SideOf(w', p, side), price), News(w, w'), price);
    } else if p' == p {
      assert side == o.otype;
    }
  }

  lemma CancelRecorded(w: World, w': World, p: PairId, o: Order, p': PairId, side: OrderType, price: Price)
    requires CancelAt(w, w', p, o)
    ensures var r, r' := RecordOf(At(SideOf(w, p', side), price)), RecordOf(At(SideOf(w', p', side), price));
            r' == if p' == p && side == o.otype && price == o.price then
                    Record(r.extraSell - (o.sellAmount - o.remainedSell), r.shortBuy + (o.buyAmount - o.remainedBuy))
                  else r
  {
    hide At, Retain;
  }

  lemma FoundNow(w: World, p: PairId, side: OrderType, price: Price)
    requires Coherent(w, {})
    ensures HasLevel(SideOf(w, p, side), price) <==> At(SideOf(w, p, side), price).orders != []
    ensures !HasLevel(SideOf(w, p, side), price) ==> At(SideOf(w, p, side), price) == NoLevel(price)
  {
    hide Orderly, PairsOk, OrdersOk, Backed, Listed, TradesOk, SideOk, SideSorted;
    if p in w.books {
      assert BookOk(w.orders, w.pairs[p], w.books[p]);
      AtFound(w.orders, w.pairs[p], side, w.books[p].Side(side), price);
      if !HasLevel(SideOf(w, p, side), price) {
        AtNone(SideOf(w, p, side), price);
      }
    }
  }

  lemma NothingNew(w: World, c: Call, p: PairId, side: OrderType, price: Price)
    requires !c.CreateLimitOrder? && !c.CancelLimitOrder?
    ensures SideOf(Next(w, c), p, side) == SideOf(w, p, side) && Next(w, c).trades == w.trades
  {
  }

  /** Every covered call leaves on record, at each price with a level, what the trade log and the cancellation say. */
  lemma NextRecorded(w: World, c: Call, p: PairId, side: OrderType, price: Price)
    requires Coherent(w, {}) && Covered(w, c)
    requires HasLevel(SideOf(Next(w, c), p, side), price)
    ensures RecordOf(At(SideOf(Next(w, c), p, side), price))
         == NextRecord(RecordOf(At(SideOf(w, p, side), price)), w, c, p, side, price)
  {
    hide Coherent, LimitOrderCall, CancelCall, Matched, Placeable, Admitted, OrderOf, SharesLevel, At, SideOf, HasLevel,
      LimitOrderAt, CancelAt, TransferCall, TradePairCall;
    NextKeeps(w, c);
    FoundNow(Next(w, c), p, side, price);
    match c
    case CreateLimitOrder(sender, base, quote, otype, sellPrice, sellAmount, order) =>
      if Perform(w, c).Ok? {
        CoherentParts(w);
        LimitOrderPlaced(w, sender, base, quote, otype, sellPrice, sellAmount, order);
        var q, o := w.pairOf[(base, quote)], OrderOf(sender, base, quote, otype, sellPrice, sellAmount, order);
        MatchedAt(w, q, o);
        OrderRecorded(w, Next(w, c), q, o, p, side, price);
      }
    case CancelLimitOrder(sender, order) =>
      if Perform(w, c).Ok? {
        CanceledAt(w, sender, order);
        var o := w.orders[order];
        var w' := Next(w, c);
        SameLog(w, w', w.pairOf[(o.base, o.quote)], o);
        CancelRecorded(w, w', w.pairOf[(o.base, o.quote)], o, p, side, price);
      }
    case _ => NothingNew(w, c, p, side, price);
  }

  lemma SameLog(w: World, w': World, p: PairId, o: Order)
    requires CancelAt(w, w', p, o)
    ensures News(w, w') == []
  {
  }

  /** In every reachable state the record of a level is what the trade log and the cancellations since it was
      opened say. */
  lemma {:induction false} RunRecorded(calls: seq<Call>, p: PairId, side: OrderType, price: Price)
    requires AllCovered(GENESIS, calls)
    ensures RecordOf(At(SideOf(Run(GENESIS, calls), p, side), price)) == Recorded(calls, p, side, price)
  {
    hide Coherent, Covered, Next, At, HasLevel, NextRecord;
    if calls == [] {
      NothingAt(p, side, price);
    } else {
      var before, c := calls[..|calls| - 1], calls[|calls| - 1];
      RunKeeps(before);
      RunKeeps(calls);
      FoundNow(Run(GENESIS, calls), p, side, price);
      if HasLevel(SideOf(Run(GENESIS, calls), p, side), price) {
        RunRecorded(before, p, side, price);
        NextRecorded(Run(GENESIS, before), c, p, side, price);
      }
    }
  }

  lemma NothingAt(p: PairId, side: OrderType, price: Price)
    ensures At(SideOf(GENESIS, p, side), price) == NoLevel(price)
  {
  }

  /** The same, level by level. */
  lemma LevelRecorded(calls: seq<Call>, p: PairId, side: OrderType, i: nat)
    requires AllCovered(GENESIS, calls)
    requires i < |SideOf(Run(GENESIS, calls), p, side)|
    ensures var l := SideOf(Run(GENESIS, calls), p, side)[i];
            Record(l.extraSell, l.shortBuy) == Recorded(calls, p, side, l.price)
  {
    hide Coherent, AllCovered, Run, Recorded, SideSorted;
    RunKeeps(calls);
    var w := Run(GENESIS, calls);
    SortedNow(w, p, side);
    AtLevel(side, SideOf(w, p, side), i);
    RunRecorded(calls, p, side, SideOf(w, p, side)[i].price);
  }

  // ---------- When nothing that is stored has wrapped ----------

  /** The stored amounts of a level are the exact ones. */
  ghost predicate Unwrapped(l: Level) {
    0 <= l.buy <= U128_MAX && 0 <= l.sell <= U128_MAX
  }

  ghost predicate AllUnwrapped(w: World) {
    forall p, side, price :: Unwrapped(At(SideOf(w, p, side), price))
  }

  /** What a limit order leaves to be queued can be added to what is stored at its price. */
  ghost predicate PushFits(w: World, c: Call) {
    c.CreateLimitOrder? && Perform(w, c).Ok? && (c.base, c.quote) in w.pairOf && c.order in Next(w, c).orders ==>
      var o, item := Next(w, c).orders[c.order], NodeOf(At(SideOf(w, w.pairOf[(c.base, c.quote)], c.otype), c.price));
      || o.status.Filled?
      || (item.sellAmount + o.remainedSell <= U128_MAX && item.buyAmount + o.remainedBuy <= U128_MAX)
  }

  lemma {:induction false} NaturalAt(orders: map<OrderId, Order>, p: Pair, side: OrderType, levels: seq<Level>,
                                     price: Price)
    requires SideOk(orders, p, side, levels) && SideRight(levels)
    ensures 0 <= At(levels, price).sell && 0 <= At(levels, price).buy
  {
    if levels != [] {
      assert LevelOk(orders, p, side, levels[0]) && AmountsRight(levels[0]);
      NaturalAt(orders, p, side, levels[1..], price);
    }
  }

  lemma NaturalNow(w: World, p: PairId, side: OrderType, price: Price)
    requires Coherent(w, {}) && AllRight(w)
    ensures 0 <= At(SideOf(w, p, side), price).sell && 0 <= At(SideOf(w, p, side), price).buy
  {
    hide Orderly, PairsOk, OrdersOk, Backed, Listed, TradesOk, SideOk, SideSorted, SideRight;
    if p in w.books {
      assert BookOk(w.orders, w.pairs[p], w.books[p]);
      RightSide(w, p, side);
      NaturalAt(w.orders, w.pairs[p], side, w.books[p].Side(side), price);
    }
  }

  lemma LeftUnwrapped(l: Level, l': Level, trades: seq<Trade>, price: Price)
    requires LevelLeft(l, l', trades, price) && Unwrapped(l) && 0 <= l'.sell && 0 <= l'.buy
    ensures Unwrapped(l')
  {
    hide TakenSell, TakenBuy, DustAt;
  }

  lemma OrderUnwraps(w: World, w': World, p: PairId, o: Order)
    requires LimitOrderAt(w, w', p, o) && AllUnwrapped(w)
    requires forall p, side, q :: 0 <= At(SideOf(w', p, side), q).sell && 0 <= At(SideOf(w', p, side), q).buy
    ensures AllUnwrapped(w') <==>
            var o', item := w'.orders[o.id], NodeOf(At(SideOf(w, p, o.otype), o.price));
            || o'.status.Filled?
            || (item.sellAmount + o'.remainedSell <= U128_MAX && item.buyAmount + o'.remainedBuy <= U128_MAX)
  {
    hide At, SideOf, LevelLeft, Wrap;
    var o', l := w'.orders[o.id], At(SideOf(w, p, o.otype), o.price);
    assert Unwrapped(l) && NodeOf(l).sellAmount == l.sell && NodeOf(l).buyAmount == l.buy;
    if o'.status.Filled? || (l.sell + o'.remainedSell <= U128_MAX && l.buy + o'.remainedBuy <= U128_MAX) {
      forall p', side, q ensures Unwrapped(At(SideOf(w', p', side), q)) {
        assert Unwrapped(At(SideOf(w, p', side), q));
        if p' == p && side == o.otype.Not() {
          LeftUnwrapped(At(SideOf(w, p, side), q), At(SideOf(w', p, side), q), News(w, w'), q);
        } else if p' == p {
          assert side == o.otype;
        }
      }
    } else {
      assert !Unwrapped(At(SideOf(w', p, o.otype), o.price));
    }
  }

  lemma CancelUnwraps(w: World, w': World, p: PairId, o: Order)
    requires CancelAt(w, w', p, o) && AllUnwrapped(w)
    requires forall p, side, q :: 0 <= At(SideOf(w', p, side), q).sell && 0 <= At(SideOf(w', p, side), q).buy
    ensures AllUnwrapped(w')
  {
    hide At, SideOf, Retain;
    forall p', side, q ensures Unwrapped(At(SideOf(w', p', side), q)) {
      assert Unwrapped(At(SideOf(w, p', side), q));
    }
  }

  lemma SameUnwraps(w: World, c: Call)
    requires !c.CreateLimitOrder? && !c.CancelLimitOrder? && AllUnwrapped(w)
    ensures AllUnwrapped(Next(w, c))
  {
    hide At, Next, SideOf;
    forall p, side, price ensures Unwrapped(At(SideOf(Next(w, c), p, side), price)) {
      NothingNew(w, c, p, side, price);
      assert Unwrapped(At(SideOf(w, p, side), price));
    }
  }

  /** Where nothing stored has wrapped, a covered call that cancels no traded order keeps that so if and only if
      what it queues can be added to what is stored. */
  lemma NextUnwrapped(w: World, c: Call)
    requires Coherent(w, {}) && Covered(w, c) && Untraded(w, c) && AllRight(w) && AllUnwrapped(w)
    ensures AllUnwrapped(Next(w, c)) <==> PushFits(w, c)
  {
    hide Coherent, LimitOrderCall, CancelCall, Matched, Placeable, Admitted, OrderOf, SharesLevel, At, SideOf,
      LimitOrderAt, CancelAt, TransferCall, TradePairCall, AllUnwrapped, AllRight, Wrap;
    NextKeeps(w, c);
    NextRight(w, c);
    forall p, side, q
      ensures 0 <= At(SideOf(Next(w, c), p, side), q).sell && 0 <= At(SideOf(Next(w, c), p, side), q).buy
    {
      NaturalNow(Next(w, c), p, side, q);
    }
    match c
    case CreateLimitOrder(sender, base, quote, otype, price, sellAmount, order) =>
      if Perform(w, c).Ok? {
        CoherentParts(w);
        LimitOrderPlaced(w, sender, base, quote, otype, price, sellAmount, order);
        var p, o := w.pairOf[(base, quote)], OrderOf(sender, base, quote, otype, price, sellAmount, order);
        MatchedAt(w, p, o);
        IsOrderOf(sender, base, quote, otype, price, sellAmount, order);
        OrderStored(w, Next(w, c), p, o);
        OrderUnwraps(w, Next(w, c), p, o);
      }
    case CancelLimitOrder(sender, order) =>
      if Perform(w, c).Ok? {
        CanceledAt(w, sender, order);
        var o := w.orders[order];
        CancelUnwraps(w, Next(w, c), w.pairOf[(o.base, o.quote)], o);
      }
    case _ => SameUnwraps(w, c);
  }

  lemma OrderStored(w: World, w': World, p: PairId, o: Order)
    requires LimitOrderAt(w, w', p, o)
    ensures o.id in w'.orders
  {
  }

  lemma IsOrderOf(sender: AccountId, base: TokenId, quote: TokenId, otype: OrderType, price: Price, sellAmount: nat,
                  id: OrderId)
    requires 0 < price && EnsureCounterpartyAmountBounds(otype, price, sellAmount).Ok?
    ensures var o := OrderOf(sender, base, quote, otype, price, sellAmount, id);
            o.id == id && o.otype == otype && o.price == price
  {
    hide EnsureCounterpartyAmountBounds;
  }

  ghost predicate AllPushesFit(calls: seq<Call>) {
    calls == [] ||
    (AllPushesFit(calls[..|calls| - 1]) && PushFits(Run(GENESIS, calls[..|calls| - 1]), calls[|calls| - 1]))
  }

  /** Nothing stored has wrapped so far. */
  ghost predicate NeverWrapped(calls: seq<Call>) {
    AllUnwrapped(Run(GENESIS, calls)) && (calls == [] || NeverWrapped(calls[..|calls| - 1]))
  }

  /** Over all runs in which no traded order is canceled, nothing stored ever wraps if and only if all that was
      queued could be added to what was stored. */
  lemma {:induction false} RunUnwrapped(calls: seq<Call>)
    requires AllCovered(GENESIS, calls) && AllUntraded(calls)
    ensures NeverWrapped(calls) <==> AllPushesFit(calls)
  {
    hide Coherent, Covered, Untraded, Perform, Next, AllRight, AllUnwrapped, PushFits;
    if calls == [] {
      NothingUnwrapped();
    } else {
      var before := calls[..|calls| - 1];
      RunUnwrapped(before);
      RunKeeps(before);
      RunRight(before);
      if AllUnwrapped(Run(GENESIS, before)) {
        NextUnwrapped(Run(GENESIS, before), calls[|calls| - 1]);
      }
    }
  }

  lemma NothingUnwrapped()
    ensures AllUnwrapped(GENESIS)
  {
    hide Wrap;
  }
}

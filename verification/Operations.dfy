/** What the calls of the two pallets do to the state, and that each of them keeps the invariant. */
module Operations {
  import opened Base
  import opened Sums
  import opened Orders
  import opened Ledger
  import opened Books
  import opened Settlement
  import opened World
  import opened Matching
  import opened TradeInvariants

  // ---------- Placing an order: its funds are frozen and it is stored ----------

  function NewOrder(id: OrderId, base: TokenId, quote: TokenId, owner: AccountId, price: Price,
                    sell: nat, buy: nat, otype: OrderType): Order {
    Order(id, base, quote, owner, price, sell, buy, sell, buy, otype, Created)
  }

  /** `PriceList::read_head` sets up the list of a pair that has none yet. */
  function Opened(books: map<PairId, Book>, p: PairId): map<PairId, Book> {
    if p in books then books else books[p := EMPTY]
  }

  function Place(w: World, p: PairId, o: Order): World
    requires Freeze(w.ledger, o.owner, o.SellToken(), o.sellAmount).Ok?
  {
    w.(ledger := Freeze(w.ledger, o.owner, o.SellToken(), o.sellAmount).value,
       orders := w.orders[o.id := o],
       books := Opened(w.books, p))
  }

  /** A new order of a known pair, with an exact admitted amount, whose owner can freeze its funds. */
  ghost predicate Placeable(w: World, p: PairId, o: Order) {
    && o.id !in w.orders && o.status.Created? && OrderOk(o)
    && p in w.pairs && w.pairs[p] == Pair(o.base, o.quote)
    && Freeze(w.ledger, o.owner, o.SellToken(), o.sellAmount).Ok?
  }

  lemma FreezeEffect(l: Ledger, owner: AccountId, token: TokenId, amount: nat)
    requires Orderly(l) && Freeze(l, owner, token, amount).Ok?
    ensures var l' := Freeze(l, owner, token, amount).value;
            && Orderly(l') && l'.balance == l.balance
            && l'.supply == l.supply && l'.owners == l.owners && l'.free.Keys == l.free.Keys
            && Known(l, owner, token).Pass?
            && l'.frozen == l.frozen[(owner, token) := Get(l.frozen, (owner, token)) + amount]
  {
    hide Orderly;
    FreezeOrderly(l, owner, token, amount);
  }

  lemma PlaceBacked(w: World, p: PairId, o: Order)
    requires Backed(w) && Placeable(w, p, o)
    ensures Backed(Place(w, p, o))
  {
    hide OrderOk, Stake;
    forall h: Holding ensures Get(Place(w, p, o).ledger.frozen, h) == Stake(Place(w, p, o).orders, h) {
      StakeUpdate(w.orders, o.id, o, h);
      assert Get(w.ledger.frozen, h) == Stake(w.orders, h);
      assert StakeOf(o, h) == if h == (o.owner, o.SellToken()) then o.sellAmount else 0 by { CreatedStake(o, h); }
    }
  }

  lemma CreatedStake(o: Order, h: Holding)
    requires OrderOk(o) && o.status.Created?
    ensures StakeOf(o, h) == if h == (o.owner, o.SellToken()) then o.sellAmount else 0
  {
  }

  lemma PlaceOrders(w: World, p: PairId, o: Order)
    requires Orderly(w.ledger) && OrdersOk(w) && PairsOk(w) && Placeable(w, p, o)
    ensures OrdersOk(Place(w, p, o))
  {
    hide OrderOk, Orderly, Sound, Freeze, PairsOk;
    PairKnown(w, p);
    FreezeEffect(w.ledger, o.owner, o.SellToken(), o.sellAmount);
    var w' := Place(w, p, o);
    forall x | x in w'.orders ensures StoredOk(w', x) {
      assert x == o.id || StoredOk(w, x);
    }
  }

  lemma SideIgnores(orders: map<OrderId, Order>, orders': map<OrderId, Order>, p: Pair, side: OrderType,
                    levels: seq<Level>, id: OrderId)
    requires SideOk(orders, p, side, levels) && NotQueued(levels, id)
    requires forall x <- orders.Keys :: x == id || (x in orders' && orders'[x] == orders[x])
    ensures SideOk(orders', p, side, levels)
  {
    hide LevelOk;
    forall i | 0 <= i < |levels| ensures LevelOk(orders', p, side, levels[i]) {
      QueuedStored(orders, p, side, levels[i]);
      LevelSame(orders, orders', p, side, levels[i]);
    }
  }

  /** A book does not notice an order that none of its queues holds. */
  lemma BookIgnores(orders: map<OrderId, Order>, orders': map<OrderId, Order>, p: Pair, b: Book, id: OrderId)
    requires BookOk(orders, p, b)
    requires NotQueued(b.bids, id) && NotQueued(b.asks, id)
    requires forall x <- orders.Keys :: x == id || (x in orders' && orders'[x] == orders[x])
    ensures BookOk(orders', p, b)
  {
    hide SideOk, Sorted;
    SideIgnores(orders, orders', p, Buy, b.bids, id);
    SideIgnores(orders, orders', p, Sell, b.asks, id);
  }

  lemma UnstoredNotQueued(orders: map<OrderId, Order>, p: Pair, b: Book, id: OrderId)
    requires BookOk(orders, p, b) && id !in orders
    ensures NotQueued(b.bids, id) && NotQueued(b.asks, id)
  {
  }

  lemma PlaceBooks(w: World, p: PairId, o: Order)
    requires BooksOk(w) && Placeable(w, p, o)
    ensures BooksOk(Place(w, p, o))
  {
    hide OrderOk, BookOk, Freeze;
    var w' := Place(w, p, o);
    forall q | q in w'.books ensures q in w'.pairs && BookOk(w'.orders, w'.pairs[q], w'.books[q]) {
      if q in w.books {
        UnstoredNotQueued(w.orders, w.pairs[q], w.books[q], o.id);
        BookIgnores(w.orders, w'.orders, w.pairs[q], w.books[q], o.id);
      } else {
        EmptyBookOk(w'.orders, w'.pairs[q]);
      }
    }
  }

  lemma EmptyBookOk(orders: map<OrderId, Order>, p: Pair)
    ensures BookOk(orders, p, EMPTY)
  {
  }

  lemma PlaceListed(w: World, p: PairId, o: Order)
    requires Listed(w, {}) && Placeable(w, p, o)
    ensures Listed(Place(w, p, o), {o.id})
  {
  }

  lemma {:induction false} NoTradesYet(trades: seq<Trade>, id: OrderId)
    requires forall t <- trades :: t.taker != id && t.maker != id
    ensures Paid(trades, id) == 0 && Received(trades, id) == 0 && Returned(trades, id) == 0
  {
    if trades != [] {
      NoTradesYet(trades[..|trades| - 1], id);
    }
  }

  lemma PlaceTrades(w: World, p: PairId, o: Order)
    requires TradesOk(w) && Placeable(w, p, o)
    ensures TradesOk(Place(w, p, o))
  {
    NoTradesYet(w.trades, o.id);
    hide Paid, Received, Returned, Freeze, ExactAmounts, Slack;
    var w' := Place(w, p, o);
    forall x | x in w'.orders ensures LogOk(w', x) {
      assert x == o.id || LogOk(w, x);
    }
  }

  /** Placing an order makes it ready to be matched, and moves no money between accounts. */
  lemma PlaceKeeps(w: World, p: PairId, o: Order)
    requires Coherent(w, {}) && Placeable(w, p, o)
    ensures p in Place(w, p, o).books && o.id in Place(w, p, o).orders
    ensures Poised(Place(w, p, o), p, o.id)
    ensures Place(w, p, o).ledger.balance == w.ledger.balance && Place(w, p, o).ledger.supply == w.ledger.supply
  {
    hide Orderly, PairsOk, OrdersOk, Backed, BooksOk, Listed, TradesOk, OrderOk, NotQueued, Freeze;
    PlaceBacked(w, p, o);
    PlaceOrders(w, p, o);
    PlaceBooks(w, p, o);
    PlaceListed(w, p, o);
    PlaceTrades(w, p, o);
    FreezeEffect(w.ledger, o.owner, o.SellToken(), o.sellAmount);
    BooksPaired(w);
    PairsKept(w, Place(w, p, o));
    PlaceNotQueued(w, p, o);
  }

  lemma PlaceNotQueued(w: World, p: PairId, o: Order)
    requires BooksOk(w) && Placeable(w, p, o)
    ensures NotQueued(Place(w, p, o).books[p].Side(o.otype), o.id)
  {
  }

  // ---------- Queueing what is left of an order ----------

  function Enqueue(w: World, p: PairId, id: OrderId): World
    requires p in w.books && id in w.orders
  {
    var o := w.orders[id];
    var b := w.books[p];
    w.(books := w.books[p :=
      b.WithSide(o.otype, Enqueued(o.otype, b.Side(o.otype), o.price, id, o.remainedSell, o.remainedBuy))])
  }

  lemma {:induction false} SumsAppend(orders: map<OrderId, Order>, ids: seq<OrderId>, id: OrderId)
    requires id in orders && forall x <- ids :: x in orders
    ensures SumBuy(orders, ids + [id]) == SumBuy(orders, ids) + orders[id].remainedBuy
    ensures SumSell(orders, ids + [id]) == SumSell(orders, ids) + orders[id].remainedSell
  {
    if ids != [] {
      assert (ids + [id])[1..] == ids[1..] + [id];
      SumsAppend(orders, ids[1..], id);
    } else {
      assert [id][1..] == [];
    }
  }

  lemma LevelJoined(orders: map<OrderId, Order>, p: Pair, side: OrderType, l: Level, id: OrderId)
    requires LevelOk(orders, p, side, l)
    requires id in orders && id !in l.orders && Resting(orders[id], p, side, l.price)
    ensures LevelOk(orders, p, side,
              Joined(l, id, orders[id].remainedSell, orders[id].remainedBuy))
  {
    SumsAppend(orders, l.orders, id);
  }

  lemma LevelOpened(orders: map<OrderId, Order>, p: Pair, side: OrderType, id: OrderId)
    requires id in orders && Resting(orders[id], p, side, orders[id].price)
    ensures LevelOk(orders, p, side, LevelOf(orders[id].price, orders[id].remainedBuy, orders[id].remainedSell, id))
  {
  }

  lemma SideJoined(orders: map<OrderId, Order>, p: Pair, side: OrderType, levels: seq<Level>, id: OrderId)
    requires SideOk(orders, p, side, levels) && NotQueued(levels, id)
    requires id in orders && Resting(orders[id], p, side, orders[id].price)
    ensures SideOk(orders, p, side,
              Enqueued(side, levels, orders[id].price, id, orders[id].remainedSell, orders[id].remainedBuy))
  {
    var o := orders[id];
    var i := InsertIndex(side, levels, o.price);
    if i < |levels| && levels[i].price == o.price {
      LevelJoined(orders, p, side, levels[i], id);
    } else {
      LevelOpened(orders, p, side, id);
      var levels' := Links.With(levels, i, LevelOf(o.price, o.remainedBuy, o.remainedSell, id));
      hide LevelOk;
      forall j | 0 <= j < |levels'| ensures LevelOk(orders, p, side, levels'[j]) {
        assert j != i ==> levels'[j] == levels[if j < i then j else j - 1];
      }
    }
  }

  /** Joining a queue displaces no other order. */
  lemma QueuedStays(side: OrderType, levels: seq<Level>, o: Order, price: Price, id: OrderId, sell: nat, buy: nat,
                    i: nat)
    returns (j: nat)
    requires QueuedAt(levels, i, o)
    ensures QueuedAt(Enqueued(side, levels, price, id, sell, buy), j, o)
  {
    var k := InsertIndex(side, levels, price);
    j := if (k < |levels| && levels[k].price == price) || i < k then i else i + 1;
  }

  lemma QueuedNow(side: OrderType, levels: seq<Level>, o: Order)
    ensures QueuedAt(Enqueued(side, levels, o.price, o.id, o.remainedSell, o.remainedBuy),
                     InsertIndex(side, levels, o.price), o)
  {
  }

  lemma EnqueueListed(w: World, p: PairId, id: OrderId)
    requires Listed(w, {id}) && OrdersOk(w) && PairsOk(w)
    requires p in w.books && p in w.pairs && id in w.orders
    requires w.pairs[p] == Pair(w.orders[id].base, w.orders[id].quote)
    ensures Listed(Enqueue(w, p, id), {})
  {
    hide PairsOk, Enqueued, OrderOk;
    PairKnown(w, p);
    var w', o := Enqueue(w, p, id), w.orders[id];
    assert StoredOk(w, id);
    var levels := w.books[p].Side(o.otype);
    WithSideTwice(w.books[p], o.otype, Enqueued(o.otype, levels, o.price, id, o.remainedSell, o.remainedBuy), levels);
    forall x | x in w'.orders && !w'.orders[x].IsFinished() ensures Queued(w', w'.orders[x]) {
      if x == id {
        QueuedNow(o.otype, levels, o);
      } else {
        EnqueueStays(w, p, id, w.orders[x]);
      }
    }
  }

  lemma EnqueueStays(w: World, p: PairId, id: OrderId, x: Order)
    requires p in w.books && id in w.orders && Queued(w, x)
    ensures Queued(Enqueue(w, p, id), x)
  {
    hide Enqueued;
    var w', o := Enqueue(w, p, id), w.orders[id];
    var levels := w.books[p].Side(o.otype);
    var q := w.pairOf[(x.base, x.quote)];
    var i :| QueuedAt(w.books[q].Side(x.otype), i, x);
    if q == p && x.otype == o.otype {
      var j := QueuedStays(o.otype, levels, x, o.price, id, o.remainedSell, o.remainedBuy, i);
      assert QueuedAt(w'.books[q].Side(x.otype), j, x);
    } else {
      assert QueuedAt(w'.books[q].Side(x.otype), i, x);
    }
  }

  lemma EnqueueBook(orders: map<OrderId, Order>, p: Pair, b: Book, id: OrderId)
    requires BookOk(orders, p, b) && id in orders
    requires OrderOk(orders[id]) && Resting(orders[id], p, orders[id].otype, orders[id].price)
    requires NotQueued(b.Side(orders[id].otype), id) && orders[id].price < U128_MAX
    requires var o := orders[id]; var other := b.Side(o.otype.Not());
             other != [] ==> !PriceMatched(o.price, o.otype, other[0].price)
    ensures var o := orders[id];
            BookOk(orders, p, b.WithSide(o.otype,
              Enqueued(o.otype, b.Side(o.otype), o.price, id, o.remainedSell, o.remainedBuy)))
  {
    var o := orders[id];
    assert SideOk(orders, p, o.otype, b.Side(o.otype)) && SideOk(orders, p, o.otype.Not(), b.Side(o.otype.Not()));
    assert Sorted(b);
    hide SideOk, Sorted, NotQueued, Enqueued;
    SideJoined(orders, p, o.otype, b.Side(o.otype), id);
    SortedEnqueue(b, o.otype, o.price, id, o.remainedSell, o.remainedBuy);
  }

  lemma EnqueueBooks(w: World, p: PairId, id: OrderId)
    requires BooksOk(w) && p in w.books && id in w.orders
    requires OrderOk(w.orders[id]) && Resting(w.orders[id], w.pairs[p], w.orders[id].otype, w.orders[id].price)
    requires NotQueued(w.books[p].Side(w.orders[id].otype), id)
    requires !w.orders[id].status.Filled? && !Crossing(w, p, id) && w.orders[id].price < U128_MAX
    ensures BooksOk(Enqueue(w, p, id))
  {
    hide OrderOk, BookOk, NotQueued, Enqueued;
    var w' := Enqueue(w, p, id);
    forall q | q in w'.books ensures q in w'.pairs && BookOk(w'.orders, w'.pairs[q], w'.books[q]) {
      if q == p {
        EnqueueBook(w.orders, w.pairs[p], w.books[p], id);
      }
    }
  }

  /** An order that has matched all it can and is not filled joins its queue; the book stays uncrossed. */
  lemma EnqueueKeeps(w: World, p: PairId, id: OrderId)
    requires p in w.books && id in w.orders && Poised(w, p, id)
    requires !Crossing(w, p, id) && !w.orders[id].status.Filled? && w.orders[id].price < U128_MAX
    ensures Coherent(Enqueue(w, p, id), {}) && Enqueue(w, p, id).ledger == w.ledger
  {
    hide Poised, Orderly, Backed, TradesOk, OrdersOk, PairsOk, BooksOk, Listed, OrderOk, NotQueued, Enqueued;
    PoisedOrder(w, p, id);
    EnqueueBooks(w, p, id);
    EnqueueListed(w, p, id);
    OnlyBooks(w, Enqueue(w, p, id));
  }

  /** Rewriting a book leaves the rest of the invariant alone. */
  lemma OnlyBooks(w: World, w': World)
    requires w' == w.(books := w'.books) && w'.books.Keys == w.books.Keys
    requires PairsOk(w) && OrdersOk(w) && Backed(w) && TradesOk(w)
    ensures PairsOk(w') && OrdersOk(w') && Backed(w') && TradesOk(w')
  {
  }

  /** Once the order being matched is filled, nothing is left between the ledger and the book. */
  lemma FilledKeeps(w: World, p: PairId, id: OrderId)
    requires p in w.books && id in w.orders && Poised(w, p, id) && w.orders[id].status.Filled?
    ensures Coherent(w, {})
  {
    hide Poised, Orderly, PairsOk, OrdersOk, Backed, BooksOk, TradesOk, Queued, NotQueued;
    PoisedOrder(w, p, id);
    assert Listed(w, {});
  }

  lemma EnqueueOrders(w: World, p: PairId, id: OrderId)
    requires p in w.books && id in w.orders
    ensures var w' := Enqueue(w, p, id);
            && w'.orders == w.orders && w'.trades == w.trades && w'.ledger == w.ledger
            && w'.pairs == w.pairs && w'.pairOf == w.pairOf
  {
  }

  // ---------- Canceling an order ----------

  /** A level less an order that is canceled: `PriceList::remove_order` takes off its total amounts. */
  function CanceledLevel(l: Level, o: Order): Level {
    WithdrawnLevel(l, o.id, o.sellAmount, o.buyAmount, o.sellAmount - o.remainedSell, o.buyAmount - o.remainedBuy)
  }

  /** What canceling order `o`, which waits in level `i` of its side, does when the level survives it. */
  function Cancel(w: World, p: PairId, o: Order, i: nat): World
    requires p in w.books && i < |w.books[p].Side(o.otype)|
    requires Unfreeze(w.ledger, o.owner, o.SellToken(), o.remainedSell).Ok?
  {
    var b := w.books[p];
    var levels := b.Side(o.otype);
    w.(ledger := Unfreeze(w.ledger, o.owner, o.SellToken(), o.remainedSell).value,
       orders := w.orders[o.id := o.(status := Canceled)],
       books := w.books[p := b.WithSide(o.otype, levels[i := CanceledLevel(levels[i], o)])])
  }

  lemma {:induction false} RetainIs(ids: seq<OrderId>, id: OrderId)
    ensures forall x :: x in Retain(ids, id) <==> x in ids && x != id
    ensures NoDuplicates(ids) ==> NoDuplicates(Retain(ids, id))
  {
    if ids != [] {
      RetainIs(ids[1..], id);
      assert forall x :: x in ids <==> x == ids[0] || x in ids[1..];
      if NoDuplicates(ids) {
        var first, rest := (if ids[0] == id then [] else [ids[0]]), Retain(ids[1..], id);
        assert forall j :: 0 <= j < |rest| ==> rest[j] in rest;
        assert ids[0] !in ids[1..];
      }
    }
  }

  /** Without one of its orders, a queue wants and offers that much less. */
  lemma {:induction false} RetainSums(orders: map<OrderId, Order>, ids: seq<OrderId>, id: OrderId)
    requires NoDuplicates(ids) && forall x <- ids :: x in orders
    ensures forall x <- Retain(ids, id) :: x in orders
    ensures SumBuy(orders, Retain(ids, id)) == SumBuy(orders, ids) - (if id in ids then orders[id].remainedBuy else 0)
    ensures SumSell(orders, Retain(ids, id)) ==
            SumSell(orders, ids) - (if id in ids then orders[id].remainedSell else 0)
  {
    RetainIs(ids, id);
    if ids != [] {
      RetainSums(orders, ids[1..], id);
      assert id in ids <==> id == ids[0] || id in ids[1..];
      assert ids[0] !in ids[1..];
      if ids[0] != id {
        assert ([ids[0]] + Retain(ids[1..], id))[1..] == Retain(ids[1..], id);
      } else {
        assert Retain(ids, id) == Retain(ids[1..], id);
      }
    }
  }

  /** A level whose amounts are what its orders want, and no less than they offer. */
  ghost predicate AmountsRight(l: Level) {
    l.shortBuy == 0 && 0 <= l.extraSell
  }

  lemma LevelCanceled(orders: map<OrderId, Order>, p: Pair, side: OrderType, l: Level, id: OrderId)
    requires LevelOk(orders, p, side, l) && id in l.orders && id in orders
    requires OrderOk(orders[id]) && orders[id].id == id
    ensures LevelOk(orders[id := orders[id].(status := Canceled)], p, side, CanceledLevel(l, orders[id]))
            <==> Retain(l.orders, id) != []
  {
    var o := orders[id];
    var orders', rest := orders[id := o.(status := Canceled)], Retain(l.orders, id);
    RetainIs(l.orders, id);
    RetainSums(orders, l.orders, id);
    SumsSame(orders, orders', rest);
    hide ExactAmounts, Slack;
  }

  /** A cancellation leaves a correct level with the right amounts if and only if the order was never
      traded and does not wait there alone: the list takes off its total amounts, not its remaining ones. */
  lemma WithdrawalExact(orders: map<OrderId, Order>, p: Pair, side: OrderType, l: Level, id: OrderId)
    requires LevelOk(orders, p, side, l) && AmountsRight(l) && id in l.orders && id in orders
    requires OrderOk(orders[id]) && orders[id].id == id
    ensures LevelOk(orders[id := orders[id].(status := Canceled)], p, side, CanceledLevel(l, orders[id]))
            && AmountsRight(CanceledLevel(l, orders[id]))
            <==> orders[id].status.Created? && Retain(l.orders, id) != []
  {
    LevelCanceled(orders, p, side, l, id);
    assert Resting(orders[id], p, side, l.price);
    hide LevelOk, ExactAmounts, Slack, Retain;
  }

  /** The money side of canceling, which uses the remaining amount, is always right. */
  lemma CancelBacked(w: World, o: Order)
    requires Orderly(w.ledger) && Backed(w)
    requires o.id in w.orders && StoredOk(w, o.id) && w.orders[o.id] == o && !o.IsFinished()
    ensures Unfreeze(w.ledger, o.owner, o.SellToken(), o.remainedSell).Ok?
  {
    hide Stake, OrderOk, Orderly, Unfreeze;
    OrderBacked(w, o.id);
    UnfreezeExact(w.ledger, o.owner, o.SellToken(), o.remainedSell);
  }

  /** An unfinished order in the book, whose level keeps another one. */
  ghost predicate Cancelable(w: World, p: PairId, o: Order, i: nat) {
    && o.id in w.orders && w.orders[o.id] == o && !o.IsFinished()
    && p in w.books && p in w.pairs && w.pairs[p] == Pair(o.base, o.quote)
    && QueuedAt(w.books[p].Side(o.otype), i, o)
    && Retain(w.books[p].Side(o.otype)[i].orders, o.id) != []
    && Unfreeze(w.ledger, o.owner, o.SellToken(), o.remainedSell).Ok?
  }

  lemma CoherentParts(w: World)
    requires Coherent(w, {})
    ensures Orderly(w.ledger)
    ensures PairsOk(w) && OrdersOk(w) && Backed(w) && BooksOk(w) && Listed(w, {}) && TradesOk(w)
  {
  }

  lemma StoredNow(w: World, id: OrderId)
    requires OrdersOk(w) && id in w.orders
    ensures StoredOk(w, id) && OrderOk(w.orders[id]) && w.orders[id].id == id
  {
  }

  lemma LevelNow(w: World, p: PairId, side: OrderType, i: nat)
    requires BooksOk(w) && p in w.books && i < |w.books[p].Side(side)|
    ensures p in w.pairs && LevelOk(w.orders, w.pairs[p], side, w.books[p].Side(side)[i])
  {
  }

  /** Only the level of an order holds it. */
  lemma OnlyLevel(orders: map<OrderId, Order>, p: Pair, side: OrderType, levels: seq<Level>, i: nat, id: OrderId)
    requires SideOk(orders, p, side, levels) && SideSorted(side, levels)
    requires i < |levels| && id in levels[i].orders
    ensures forall j :: 0 <= j < |levels| && j != i ==> id !in levels[j].orders
  {
  }

  lemma SideCanceled(orders: map<OrderId, Order>, p: Pair, side: OrderType, levels: seq<Level>, i: nat, o: Order)
    requires SideOk(orders, p, side, levels) && SideSorted(side, levels)
    requires i < |levels| && o.id in levels[i].orders
    requires o.id in orders && orders[o.id] == o && OrderOk(o) && Retain(levels[i].orders, o.id) != []
    ensures SideOk(orders[o.id := o.(status := Canceled)], p, side, levels[i := CanceledLevel(levels[i], o)])
  {
    OnlyLevel(orders, p, side, levels, i, o.id);
    hide LevelOk, SideSorted, CanceledLevel, Retain, OrderOk;
    LevelCanceled(orders, p, side, levels[i], o.id);
    var orders' := orders[o.id := o.(status := Canceled)];
    var levels' := levels[i := CanceledLevel(levels[i], o)];
    forall j | 0 <= j < |levels'| ensures LevelOk(orders', p, side, levels'[j]) {
      if j != i {
        assert LevelOk(orders, p, side, levels[j]);
        QueuedStored(orders, p, side, levels[j]);
        LevelSame(orders, orders', p, side, levels[j]);
      }
    }
  }

  lemma CancelBook(orders: map<OrderId, Order>, p: Pair, b: Book, i: nat, o: Order)
    requires BookOk(orders, p, b) && o.id in orders && orders[o.id] == o && OrderOk(o)
    requires i < |b.Side(o.otype)| && o.id in b.Side(o.otype)[i].orders
    requires Retain(b.Side(o.otype)[i].orders, o.id) != []
    ensures BookOk(orders[o.id := o.(status := Canceled)], p,
              b.WithSide(o.otype, b.Side(o.otype)[i := CanceledLevel(b.Side(o.otype)[i], o)]))
  {
    var side, orders' := o.otype, orders[o.id := o.(status := Canceled)];
    assert SideOk(orders, p, side, b.Side(side)) && SideOk(orders, p, side.Not(), b.Side(side.Not()));
    assert Sorted(b) && SideSorted(side, b.Side(side));
    hide SideOk, Sorted, SideSorted, Retain, OrderOk;
    NotOnSide(orders, p, side.Not(), b.Side(side.Not()), o.id);
    SideCanceled(orders, p, side, b.Side(side), i, o);
    SideIgnores(orders, orders', p, side.Not(), b.Side(side.Not()), o.id);
    SortedReplace(b, side, i, CanceledLevel(b.Side(side)[i], o));
  }

  lemma CancelBooks(w: World, p: PairId, o: Order, i: nat)
    requires BooksOk(w) && PairsOk(w) && OrdersOk(w) && Cancelable(w, p, o, i)
    ensures BooksOk(Cancel(w, p, o, i))
  {
    hide OrdersOk, PairsOk, BookOk, Unfreeze, CanceledLevel, Retain, OrderOk;
    StoredNow(w, o.id);
    var w' := Cancel(w, p, o, i);
    forall q | q in w'.books ensures q in w'.pairs && BookOk(w'.orders, w'.pairs[q], w'.books[q]) {
      assert q in w.pairs && BookOk(w.orders, w.pairs[q], w.books[q]);
      if q == p {
        CancelBook(w.orders, w.pairs[p], w.books[p], i, o);
      } else {
        PairKnown(w, p);
        PairKnown(w, q);
        NotInOtherBook(w.orders, w.pairs[q], w.books[q], o);
        BookIgnores(w.orders, w'.orders, w.pairs[q], w.books[q], o.id);
      }
    }
  }

  lemma NotInOtherBook(orders: map<OrderId, Order>, p: Pair, b: Book, o: Order)
    requires BookOk(orders, p, b) && o.id in orders && orders[o.id] == o && Pair(o.base, o.quote) != p
    ensures NotQueued(b.bids, o.id) && NotQueued(b.asks, o.id)
  {
  }

  lemma CancelListed(w: World, p: PairId, o: Order, i: nat)
    requires Listed(w, {}) && OrdersOk(w) && Cancelable(w, p, o, i)
    ensures Listed(Cancel(w, p, o, i), {})
  {
    hide OrdersOk, Unfreeze, Retain, OrderOk;
    var w' := Cancel(w, p, o, i);
    forall x | x in w'.orders && !w'.orders[x].IsFinished() ensures Queued(w', w'.orders[x]) {
      StoredNow(w, x);
      CancelStays(w, p, o, i, w.orders[x]);
    }
  }

  lemma CancelStays(w: World, p: PairId, o: Order, i: nat, x: Order)
    requires p in w.books && i < |w.books[p].Side(o.otype)|
    requires Unfreeze(w.ledger, o.owner, o.SellToken(), o.remainedSell).Ok?
    requires Queued(w, x) && x.id != o.id
    ensures Queued(Cancel(w, p, o, i), x)
  {
    hide Unfreeze, Retain;
    var w' := Cancel(w, p, o, i);
    var levels := w.books[p].Side(o.otype);
    RetainIs(levels[i].orders, o.id);
    var q := w.pairOf[(x.base, x.quote)];
    var j :| QueuedAt(w.books[q].Side(x.otype), j, x);
    assert QueuedAt(w'.books[q].Side(x.otype), j, x);
  }

  lemma CancelFunds(w: World, p: PairId, o: Order, i: nat)
    requires Orderly(w.ledger) && Backed(w) && Cancelable(w, p, o, i)
    ensures var w' := Cancel(w, p, o, i);
            && Backed(w') && Orderly(w'.ledger) && w'.ledger.balance == w.ledger.balance
            && w'.ledger.supply == w.ledger.supply && w'.ledger.free.Keys == w.ledger.free.Keys
  {
    var w' := Cancel(w, p, o, i);
    hide Stake, Total, TokensKnown, Split, Unfreeze, QueuedAt, Retain, CanceledLevel;
    UnfreezeChanges(w.ledger, o.owner, o.SellToken(), o.remainedSell);
    forall h: Holding ensures Get(w'.ledger.frozen, h) == Stake(w'.orders, h) {
      StakeUpdate(w.orders, o.id, o.(status := Canceled), h);
      assert Get(w.ledger.frozen, h) == Stake(w.orders, h);
    }
  }

  /** Canceling an unfinished order whose level keeps another one keeps everything in order, whether it
      was traded or not, and moves no money between accounts. */
  lemma CancelKeeps(w: World, p: PairId, o: Order, i: nat)
    requires Coherent(w, {}) && Cancelable(w, p, o, i)
    ensures Coherent(Cancel(w, p, o, i), {})
    ensures var l := Cancel(w, p, o, i).ledger; l.balance == w.ledger.balance && l.supply == w.ledger.supply
  {
    hide Orderly, OrdersOk, BooksOk, PairsOk, Backed, Listed, TradesOk, Unfreeze, OrderOk, Retain, CanceledLevel;
    CoherentParts(w);
    StoredNow(w, o.id);
    var w' := Cancel(w, p, o, i);
    CancelFunds(w, p, o, i);
    CancelBooks(w, p, o, i);
    CancelListed(w, p, o, i);
    BooksPaired(w);
    PairsKept(w, w');
    CancelOrders(w, w', o);
  }

  lemma BooksPaired(w: World)
    requires PairsOk(w)
    ensures w.books.Keys <= w.pairs.Keys
  {
  }

  lemma CancelOrders(w: World, w': World, o: Order)
    requires OrdersOk(w) && TradesOk(w) && OrderOk(o) && !o.IsFinished()
    requires o.id in w.orders && w.orders[o.id] == o && w'.orders == w.orders[o.id := o.(status := Canceled)]
    requires w'.ledger.supply == w.ledger.supply && w'.ledger.free.Keys == w.ledger.free.Keys
    requires w'.pairOf == w.pairOf && w'.trades == w.trades
    ensures OrdersOk(w') && TradesOk(w')
  {
    hide Paid, Received, Returned, ExactAmounts, Slack, WithinLimit;
    forall x | x in w'.orders
      ensures StoredOk(w', x) && LogOk(w', x)
    {
      assert StoredOk(w, x) && LogOk(w, x);
    }
  }
}

/** The state of the exchange, and the invariant that its operations keep. */
module World {
  import opened Base
  import opened Sums
  import opened Orders
  import opened FillMath
  import opened Ledger
  import opened Books
  import opened Settlement

  datatype Pair = Pair(base: TokenId, quote: TokenId)

  /** A trade and the two orders it belongs to; `otype` is the taker's. What each order did not need, because
      the trade filled it, was unfrozen. */
  datatype Trade = Trade(
    pair: PairId,
    taker: OrderId,
    maker: OrderId,
    otype: OrderType,
    price: Price,
    fill: Fill,
    takerBack: nat,
    makerBack: nat
  )

  datatype World = World(
    ledger: Ledger,
    pairs: map<PairId, Pair>,
    pairOf: map<(TokenId, TokenId), PairId>,
    orders: map<OrderId, Order>,
    books: map<PairId, Book>,
    trades: seq<Trade>
  )

  const GENESIS := World(Ledger(map[], map[], map[], map[], map[]), map[], map[], map[], map[], [])

  // ---------- Pairs ----------

  ghost predicate PairOk(w: World, p: PairId)
    requires p in w.pairs
  {
    && w.pairs[p].base != w.pairs[p].quote
    && w.pairs[p].base in w.ledger.supply && w.pairs[p].quote in w.ledger.supply
    && (w.pairs[p].base, w.pairs[p].quote) in w.pairOf
    && w.pairOf[(w.pairs[p].base, w.pairs[p].quote)] == p
  }

  ghost predicate PairsOk(w: World) {
    && (forall p <- w.pairs.Keys :: PairOk(w, p))
    && (forall bq <- w.pairOf.Keys :: w.pairOf[bq] in w.pairs && w.pairs[w.pairOf[bq]] == Pair(bq.0, bq.1))
    && w.books.Keys <= w.pairs.Keys
  }

  // ---------- Orders and the funds behind them ----------

  ghost predicate StoredOk(w: World, id: OrderId)
    requires id in w.orders
  {
    var o := w.orders[id];
    && o.id == id && OrderOk(o)
    && (o.base, o.quote) in w.pairOf
    && Known(w.ledger, o.owner, o.SellToken()).Pass?
  }

  ghost predicate OrdersOk(w: World) {
    forall id <- w.orders.Keys :: StoredOk(w, id)
  }

  /** What an order keeps frozen of one holding. */
  function StakeOf(o: Order, h: Holding): nat {
    if (o.owner, o.SellToken()) == h && !o.IsFinished() then o.remainedSell else 0
  }

  function Stakes(orders: map<OrderId, Order>, h: Holding): map<OrderId, nat> {
    map id | id in orders :: StakeOf(orders[id], h)
  }

  /** What all unfinished orders together keep frozen of one holding. */
  ghost function Stake(orders: map<OrderId, Order>, h: Holding): nat {
    Sum(Stakes(orders, h))
  }

  /** Every frozen balance is exactly what its owner's unfinished orders still offer. */
  ghost predicate Backed(w: World) {
    forall h: Holding :: Get(w.ledger.frozen, h) == Stake(w.orders, h)
  }

  lemma StakeUpdate(orders: map<OrderId, Order>, id: OrderId, o: Order, h: Holding)
    ensures Stake(orders[id := o], h) ==
            Stake(orders, h) - (if id in orders then StakeOf(orders[id], h) else 0) + StakeOf(o, h)
  {
    assert Stakes(orders[id := o], h) == Stakes(orders, h)[id := StakeOf(o, h)];
    SumUpdate(Stakes(orders, h), id, StakeOf(o, h));
  }

  lemma StakeCovers(orders: map<OrderId, Order>, id: OrderId, h: Holding)
    requires id in orders
    ensures StakeOf(orders[id], h) <= Stake(orders, h)
  {
    SumCovers(Stakes(orders, h), id);
  }

  // ---------- Books ----------

  /** An order that waits in the book of pair `p`, on `side`, at `price`. */
  predicate Resting(o: Order, p: Pair, side: OrderType, price: Price) {
    !o.IsFinished() && o.base == p.base && o.quote == p.quote && o.otype == side && o.price == price
  }

  function SumBuy(orders: map<OrderId, Order>, ids: seq<OrderId>): nat
    requires forall id <- ids :: id in orders
  {
    if ids == [] then 0 else orders[ids[0]].remainedBuy + SumBuy(orders, ids[1..])
  }

  function SumSell(orders: map<OrderId, Order>, ids: seq<OrderId>): nat
    requires forall id <- ids :: id in orders
  {
    if ids == [] then 0 else orders[ids[0]].remainedSell + SumSell(orders, ids[1..])
  }

  ghost predicate NoDuplicates(ids: seq<OrderId>) {
    forall i, j :: 0 <= i < j < |ids| ==> ids[i] != ids[j]
  }

  /** A level queues at least one order, all of them resting at its price; its amounts are what they
      still want and offer, up to what the level has on record. */
  ghost predicate LevelOk(orders: map<OrderId, Order>, p: Pair, side: OrderType, l: Level) {
    && l.orders != [] && NoDuplicates(l.orders)
    && (forall id <- l.orders :: id in orders && Resting(orders[id], p, side, l.price))
    && l.buy + l.shortBuy == SumBuy(orders, l.orders) && 0 <= l.shortBuy
    && l.sell == SumSell(orders, l.orders) + l.extraSell
  }

  ghost predicate SideOk(orders: map<OrderId, Order>, p: Pair, side: OrderType, levels: seq<Level>) {
    forall i :: 0 <= i < |levels| ==> LevelOk(orders, p, side, levels[i])
  }

  ghost predicate BookOk(orders: map<OrderId, Order>, p: Pair, b: Book) {
    Sorted(b) && SideOk(orders, p, Buy, b.bids) && SideOk(orders, p, Sell, b.asks)
  }

  ghost predicate BooksOk(w: World) {
    forall p <- w.books.Keys :: p in w.pairs && BookOk(w.orders, w.pairs[p], w.books[p])
  }

  predicate QueuedAt(levels: seq<Level>, i: int, o: Order) {
    0 <= i < |levels| && levels[i].price == o.price && o.id in levels[i].orders
  }

  /** An order stands in the book of its pair, in the queue of its price. */
  ghost predicate Queued(w: World, o: Order) {
    && (o.base, o.quote) in w.pairOf
    && var p := w.pairOf[(o.base, o.quote)];
       p in w.books && exists i :: QueuedAt(w.books[p].Side(o.otype), i, o)
  }

  /** Every unfinished order is in the book, except those that are just being matched. */
  ghost predicate Listed(w: World, matching: set<OrderId>) {
    forall id <- w.orders.Keys :: id !in matching && !w.orders[id].IsFinished() ==> Queued(w, w.orders[id])
  }

  // ---------- The trade log ----------

  function GivenIn(t: Trade, id: OrderId): nat {
    (if t.taker == id then GiveOf(t.fill, t.otype) else 0) +
    (if t.maker == id then GiveOf(t.fill, t.otype.Not()) else 0)
  }

  function GottenIn(t: Trade, id: OrderId): nat {
    (if t.taker == id then HaveOf(t.fill, t.otype) else 0) +
    (if t.maker == id then HaveOf(t.fill, t.otype.Not()) else 0)
  }

  /** All that an order has given, and gotten, in the trades so far. */
  function Paid(trades: seq<Trade>, id: OrderId): nat {
    if trades == [] then 0 else Paid(trades[..|trades| - 1], id) + GivenIn(trades[|trades| - 1], id)
  }

  function Received(trades: seq<Trade>, id: OrderId): nat {
    if trades == [] then 0 else Received(trades[..|trades| - 1], id) + GottenIn(trades[|trades| - 1], id)
  }

  function BackIn(t: Trade, id: OrderId): nat {
    (if t.taker == id then t.takerBack else 0) + (if t.maker == id then t.makerBack else 0)
  }

  /** All that an order has got back in the trades so far. */
  function Returned(trades: seq<Trade>, id: OrderId): nat {
    if trades == [] then 0 else Returned(trades[..|trades| - 1], id) + BackIn(trades[|trades| - 1], id)
  }

  /** The trades of an order account for its remainders and respect its limit price. */
  ghost predicate HistoryOk(o: Order, paid: nat, received: nat, back: nat) {
    && received == o.buyAmount - o.remainedBuy
    && paid + back + o.remainedSell == o.sellAmount
    && (back != 0 ==> o.status.Filled?)
    && WithinLimit(o.otype, o.price, paid, received)
  }

  ghost predicate LogOk(w: World, id: OrderId)
    requires id in w.orders
  {
    HistoryOk(w.orders[id], Paid(w.trades, id), Received(w.trades, id), Returned(w.trades, id))
  }

  ghost predicate TradesOk(w: World) {
    && (forall t <- w.trades :: t.taker in w.orders && t.maker in w.orders)
    && (forall id <- w.orders.Keys :: LogOk(w, id))
  }

  // ---------- The invariant ----------

  /** What holds, whoever trades with whom, while the orders in `matching`, and no others, are between
      the book and the ledger. */
  ghost predicate Coherent(w: World, matching: set<OrderId>) {
    && Orderly(w.ledger)
    && PairsOk(w)
    && OrdersOk(w)
    && Backed(w)
    && BooksOk(w)
    && Listed(w, matching)
    && TradesOk(w)
  }

  /** Between two calls, moreover, nothing is in circulation that was not issued. */
  ghost predicate Inv(w: World) {
    Coherent(w, {}) && Sound(w.ledger)
  }
}

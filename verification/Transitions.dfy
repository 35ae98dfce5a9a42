/** The exchange as a state machine: every call, what it does or why it fails, and what holds over all
    runs. A call that fails leaves the state as it was. */
module Transitions {
  import opened Base
  import opened Orders
  import opened FillMath
  import opened Ledger
  import opened Books
  import opened Settlement
  import opened World
  import opened Matching
  import opened Engine
  import opened Operations

  datatype Call =
    | IssueToken(sender: AccountId, token: TokenId, totalSupply: nat)
    | TransferToken(sender: AccountId, to: AccountId, token: TokenId, amount: nat)
    | CreateTradePair(sender: AccountId, base: TokenId, quote: TokenId, pair: PairId)
    | CreateLimitOrder(sender: AccountId, base: TokenId, quote: TokenId, otype: OrderType, price: Price,
                       sellAmount: nat, order: OrderId)
    | CancelLimitOrder(sender: AccountId, order: OrderId)

  function TransferCall(w: World, from: AccountId, to: AccountId, token: TokenId, amount: nat): Result<World> {
    if from == to then Err(MustNotTransferYourself) else
      var ledger :- Transfer(w.ledger, from, to, token, amount);
      Ok(w.(ledger := ledger))
  }

  function TradePairCall(w: World, sender: AccountId, base: TokenId, quote: TokenId, pair: PairId): Result<World> {
    if base == quote then Err(BaseEqualQuote)
    else if base !in w.ledger.owners || quote !in w.ledger.owners then Err(TokenOwnerNotFound)
    else if sender != w.ledger.owners[base] && sender != w.ledger.owners[quote] then
      Err(SenderNotEqualToBaseOrQuoteOwner)
    else if (base, quote) in w.pairOf || (quote, base) in w.pairOf then Err(TradePairExisted)
    else Ok(w.(pairs := w.pairs[pair := Pair(base, quote)], pairOf := w.pairOf[(base, quote) := pair]))
  }

  /** A limit order is placed, matched as far as possible, and queued unless it was filled. It fails if a
      trade that is due fails. */
  function LimitOrderCall(w: World, sender: AccountId, base: TokenId, quote: TokenId, otype: OrderType,
                          price: Price, sellAmount: nat, id: OrderId): Result<World>
  {
    if EnsureBounds(price, sellAmount).Fail? then Err(EnsureBounds(price, sellAmount).error) else
      var buyAmount :- EnsureCounterpartyAmountBounds(otype, price, sellAmount);
      if (base, quote) !in w.pairOf then Err(NoMatchingTradePair) else
        var o := NewOrder(id, base, quote, sender, price, sellAmount, buyAmount, otype);
        var enough := EnsureFreeBalance(w.ledger, sender, o.SellToken(), sellAmount);
        if enough.Fail? then Err(enough.error) else
          var _ :- Freeze(w.ledger, sender, o.SellToken(), sellAmount);
          Matched(w, w.pairOf[(base, quote)], o)
  }

  function Matched(w: World, p: PairId, o: Order): Result<World>
    requires Freeze(w.ledger, o.owner, o.SellToken(), o.sellAmount).Ok?
  {
    var matched := Match(Place(w, p, o), p, o.id);
    if Crossing(matched, p, o.id) then Err(NextError(matched, p, o.id))
    else if matched.orders[o.id].status.Filled? then Ok(matched)
    else Ok(Enqueue(matched, p, o.id))
  }

  /** The level of its side that an unfinished order waits in. */
  function LevelIndex(w: World, p: PairId, o: Order): nat
    requires p in w.books
  {
    InsertIndex(o.otype, w.books[p].Side(o.otype), o.price)
  }

  predicate InList(w: World, p: PairId, o: Order) {
    p in w.books && QueuedAt(w.books[p].Side(o.otype), LevelIndex(w, p, o), o)
  }

  function CancelCall(w: World, sender: AccountId, id: OrderId): Result<World> {
    if id !in w.orders then Err(NoMatchingOrder)
    else if w.orders[id].owner != sender then Err(CanOnlyCancelOwnOrder)
    else if w.orders[id].IsFinished() then Err(CanOnlyCancelNotFinishedOrder)
    else if (w.orders[id].base, w.orders[id].quote) !in w.pairOf then Err(NoMatchingTradePair)
    else
      var o := w.orders[id];
      var p := w.pairOf[(o.base, o.quote)];
      if !InList(w, p, o) then Err(OrderNotInList) else
        var _ :- Unfreeze(w.ledger, o.owner, o.SellToken(), o.remainedSell);
        Ok(Cancel(w, p, o, LevelIndex(w, p, o)))
  }

  function Perform(w: World, c: Call): Result<World> {
    match c
    case IssueToken(sender, token, totalSupply) => Ok(w.(ledger := Issue(w.ledger, sender, token, totalSupply)))
    case TransferToken(sender, to, token, amount) => TransferCall(w, sender, to, token, amount)
    case CreateTradePair(sender, base, quote, pair) => TradePairCall(w, sender, base, quote, pair)
    case CreateLimitOrder(sender, base, quote, otype, price, sellAmount, order) =>
      LimitOrderCall(w, sender, base, quote, otype, price, sellAmount, order)
    case CancelLimitOrder(sender, order) => CancelCall(w, sender, order)
  }

  function Next(w: World, c: Call): World {
    var r := Perform(w, c);
    if r.Ok? then r.value else w
  }

  function Run(w: World, calls: seq<Call>): World {
    if calls == [] then w else Next(Run(w, calls[..|calls| - 1]), calls[|calls| - 1])
  }

  // ---------- The calls that the theorems cover ----------

  /** Hashes are fresh; amounts, and all sums and products, are `u128`; an order at the top sentinel's price
      is filled at once; and a canceled order leaves another one in its level. */
  ghost predicate Covered(w: World, c: Call) {
    Formed(w, c) && Perform(w, c) != Err(ArithmeticOverflow)
  }

  ghost predicate Formed(w: World, c: Call) {
    match c
    case IssueToken(sender, token, totalSupply) => token !in w.ledger.supply && totalSupply <= U128_MAX
    case TransferToken(sender, to, token, amount) => true
    case CreateTradePair(sender, base, quote, pair) => pair !in w.pairs
    case CreateLimitOrder(sender, base, quote, otype, price, sellAmount, order) =>
      order !in w.orders && (price < U128_MAX || GetsFilled(w, sender, base, quote, otype, price, sellAmount, order))
    case CancelLimitOrder(sender, order) =>
      order in w.orders && w.orders[order].owner == sender && !w.orders[order].IsFinished() ==>
        SharesLevel(w, w.orders[order])
  }

  /** Unless a limit order fails, it is filled at once. */
  predicate GetsFilled(w: World, sender: AccountId, base: TokenId, quote: TokenId, otype: OrderType,
                       price: Price, sellAmount: nat, id: OrderId)
  {
    var r := LimitOrderCall(w, sender, base, quote, otype, price, sellAmount, id);
    r.Ok? ==> id in r.value.orders && r.value.orders[id].status.Filled?
  }

  ghost predicate SharesLevel(w: World, o: Order) {
    && (o.base, o.quote) in w.pairOf
    && var p := w.pairOf[(o.base, o.quote)];
       && p in w.books
       && var i := LevelIndex(w, p, o);
          i < |w.books[p].Side(o.otype)| ==> Retain(w.books[p].Side(o.otype)[i].orders, o.id) != []
  }

  ghost predicate AllCovered(w: World, calls: seq<Call>) {
    calls == [] ||
    (AllCovered(w, calls[..|calls| - 1]) && Covered(Run(w, calls[..|calls| - 1]), calls[|calls| - 1]))
  }

  // ---------- Every covered call keeps everything in order ----------

  /** A change of the ledger that keeps what is frozen, and forgets no token and no holding. */
  lemma LedgerKeeps(w: World, l: Ledger)
    requires Coherent(w, {}) && Orderly(l)
    requires forall t <- w.ledger.supply.Keys :: t in l.supply && l.supply[t] == w.ledger.supply[t]
    requires w.ledger.free.Keys <= l.free.Keys && l.frozen == w.ledger.frozen
    ensures Coherent(w.(ledger := l), {})
  {
    hide Orderly, BooksOk, TradesOk, Queued, OrderOk, Stake;
    var w' := w.(ledger := l);
    forall p <- w'.pairs.Keys ensures PairOk(w', p) {
      assert PairOk(w, p);
    }
    forall x <- w'.orders.Keys ensures StoredOk(w', x) {
      assert StoredOk(w, x);
    }
    BooksOnly(w, w');
    ListedSame(w, w');
  }

  lemma BooksOnly(w: World, w': World)
    requires BooksOk(w) && TradesOk(w)
    requires w'.orders == w.orders && w'.books == w.books && w'.trades == w.trades
    requires forall p <- w.pairs.Keys :: p in w'.pairs && w'.pairs[p] == w.pairs[p]
    ensures BooksOk(w') && TradesOk(w')
  {
  }

  lemma ListedSame(w: World, w': World)
    requires Listed(w, {})
    requires w'.orders == w.orders && w'.books == w.books
    requires forall bq <- w.pairOf.Keys :: bq in w'.pairOf && w'.pairOf[bq] == w.pairOf[bq]
    ensures Listed(w', {})
  {
  }

  lemma IssueKeeps(w: World, sender: AccountId, token: TokenId, amount: nat)
    requires Coherent(w, {}) && token !in w.ledger.supply && amount <= U128_MAX
    ensures Coherent(w.(ledger := Issue(w.ledger, sender, token, amount)), {})
  {
    hide Coherent, TokensKnown, Split, Bounded;
    CoherentParts(w);
    IssueOrderly(w.ledger, sender, token, amount);
    LedgerKeeps(w, Issue(w.ledger, sender, token, amount));
  }

  lemma TransferKeeps(w: World, from: AccountId, to: AccountId, token: TokenId, amount: nat)
    requires Coherent(w, {}) && TransferCall(w, from, to, token, amount).Ok?
    ensures Coherent(TransferCall(w, from, to, token, amount).value, {})
  {
    hide Coherent, Orderly, Transfer;
    CoherentParts(w);
    TransferChanges(w.ledger, from, to, token, amount);
    LedgerKeeps(w, Transfer(w.ledger, from, to, token, amount).value);
  }

  lemma OwnersKnown(l: Ledger)
    requires Orderly(l)
    ensures l.owners.Keys == l.supply.Keys
  {
  }

  lemma TradePairKeeps(w: World, sender: AccountId, base: TokenId, quote: TokenId, pair: PairId)
    requires Coherent(w, {}) && pair !in w.pairs
    requires TradePairCall(w, sender, base, quote, pair).Ok?
    ensures Coherent(TradePairCall(w, sender, base, quote, pair).value, {})
  {
    hide Orderly, BooksOk, TradesOk, Queued, OrderOk, Stake;
    OwnersKnown(w.ledger);
    var w' := TradePairCall(w, sender, base, quote, pair).value;
    forall p <- w'.pairs.Keys ensures PairOk(w', p) {
      assert p == pair || PairOk(w, p);
    }
    forall x <- w'.orders.Keys ensures StoredOk(w', x) {
      assert StoredOk(w, x);
    }
    BooksOnly(w, w');
    ListedSame(w, w');
  }

  /** A limit order that is admitted, and whose funds can be frozen. */
  predicate Admitted(w: World, sender: AccountId, base: TokenId, quote: TokenId, otype: OrderType,
                     price: Price, sellAmount: nat)
  {
    && EnsureBounds(price, sellAmount).Pass?
    && EnsureCounterpartyAmountBounds(otype, price, sellAmount).Ok?
    && (base, quote) in w.pairOf
    && EnsureFreeBalance(w.ledger, sender, if otype.Buy? then base else quote, sellAmount).Pass?
    && Freeze(w.ledger, sender, if otype.Buy? then base else quote, sellAmount).Ok?
  }

  /** The order that an admitted call creates. */
  function OrderOf(sender: AccountId, base: TokenId, quote: TokenId, otype: OrderType, price: Price,
                   sellAmount: nat, id: OrderId): Order
    requires 0 < price && EnsureCounterpartyAmountBounds(otype, price, sellAmount).Ok?
  {
    NewOrder(id, base, quote, sender, price, sellAmount,
             EnsureCounterpartyAmountBounds(otype, price, sellAmount).value, otype)
  }

  /** A limit order fails before it is matched, or it is placed, and matched as far as possible. */
  lemma LimitOrderPlaced(w: World, sender: AccountId, base: TokenId, quote: TokenId, otype: OrderType,
                         price: Price, sellAmount: nat, id: OrderId)
    requires PairsOk(w) && id !in w.orders
    ensures Admitted(w, sender, base, quote, otype, price, sellAmount) ==>
              && 0 < price && EnsureCounterpartyAmountBounds(otype, price, sellAmount).Ok?
              && (base, quote) in w.pairOf
              && var o := OrderOf(sender, base, quote, otype, price, sellAmount, id);
                 var p := w.pairOf[(base, quote)];
                 && o.id == id && o.price == price && Placeable(w, p, o)
                 && LimitOrderCall(w, sender, base, quote, otype, price, sellAmount, id) == Matched(w, p, o)
    ensures !Admitted(w, sender, base, quote, otype, price, sellAmount) ==>
              LimitOrderCall(w, sender, base, quote, otype, price, sellAmount, id).Err?
  {
    hide Matched, Freeze, EnsureFreeBalance, EnsureCounterpartyAmountBounds, PairOk;
    if 0 < price {
      AdmissionExact(otype, price, sellAmount);
    }
  }

  /** Placing, matching and queueing an order keeps everything in order, and leaves no crossing price
      behind. */
  lemma MatchedKeeps(w: World, p: PairId, o: Order)
    requires Coherent(w, {}) && Placeable(w, p, o) && Matched(w, p, o).Ok?
    requires o.price < U128_MAX ||
             (o.id in Matched(w, p, o).value.orders && Matched(w, p, o).value.orders[o.id].status.Filled?)
    ensures Coherent(Matched(w, p, o).value, {})
  {
    hide Coherent, OrderOk, Freeze, Poised, Crossing, Match, Enqueue, Place;
    PlaceKeeps(w, p, o);
    var placed := Place(w, p, o);
    MatchStops(placed, p, o.id);
    var matched := Match(placed, p, o.id);
    if matched.orders[o.id].status.Filled? {
      FilledKeeps(matched, p, o.id);
    } else {
      LogGrows(placed, p, o.id);
      PlacedPrice(w, p, o);
      EnqueueOrders(matched, p, o.id);
      EnqueueKeeps(matched, p, o.id);
    }
  }

  lemma PlacedPrice(w: World, p: PairId, o: Order)
    requires Placeable(w, p, o)
    ensures o.id in Place(w, p, o).orders && Place(w, p, o).orders[o.id] == o
  {
    hide OrderOk, Freeze;
  }

  /** A placed order is matched without a failure if and only if no product and no credited balance leaves
      `u128`; there is no other failure. */
  lemma MatchedExact(w: World, p: PairId, o: Order)
    requires Coherent(w, {}) && Placeable(w, p, o)
    ensures p in Place(w, p, o).books && o.id in Place(w, p, o).orders
    ensures Matched(w, p, o).Ok? <==> MatchFits(Place(w, p, o), p, o.id)
    ensures Matched(w, p, o).Err? ==> Matched(w, p, o).error == ArithmeticOverflow
  {
    hide Coherent, OrderOk, Freeze, Poised, Crossing, Match, MatchFits, NextError, Enqueue, Place;
    PlaceKeeps(w, p, o);
    MatchFitsExact(Place(w, p, o), p, o.id);
  }

  /** In a sound ledger, that is so if the order meets only orders of others until it rests, and the pair is
      capped. */
  lemma MatchedSucceeds(w: World, p: PairId, o: Order)
    requires Coherent(w, {}) && Sound(w.ledger) && Placeable(w, p, o) && Capped(w, p)
    requires p in Place(w, p, o).books && o.id in Place(w, p, o).orders && MeetsOthers(Place(w, p, o), p, o.id)
    ensures Matched(w, p, o).Ok?
  {
    hide Coherent, OrderOk, Freeze, Poised, Crossing, Match, Enqueue, Place, Sound, MeetsOthers;
    PlaceKeeps(w, p, o);
    PlaceSound(w, p, o);
    PlaceCapped(w, p, o);
    MatchRests(Place(w, p, o), p, o.id);
  }

  lemma PlaceCapped(w: World, p: PairId, o: Order)
    requires Placeable(w, p, o)
    ensures Capped(Place(w, p, o), p) <==> Capped(w, p)
  {
    hide OrderOk;
  }

  lemma PlaceSound(w: World, p: PairId, o: Order)
    requires Coherent(w, {}) && Placeable(w, p, o)
    ensures Sound(Place(w, p, o).ledger) <==> Sound(w.ledger)
    ensures Inflated(Place(w, p, o).ledger) <==> Inflated(w.ledger)
  {
    hide Coherent, OrderOk, Freeze, Orderly, Sound, Inflated;
    PlaceKeeps(w, p, o);
    PoisedOrderly(Place(w, p, o), p, o.id);
    CoherentParts(w);
    SameMoney(w.ledger, Place(w, p, o).ledger);
  }

  lemma PoisedOrderly(w: World, p: PairId, id: OrderId)
    requires Poised(w, p, id)
    ensures Orderly(w.ledger)
  {
  }

  lemma LimitOrderKeeps(w: World, sender: AccountId, base: TokenId, quote: TokenId, otype: OrderType,
                        price: Price, sellAmount: nat, id: OrderId)
    requires Coherent(w, {}) && id !in w.orders
    requires price < U128_MAX || GetsFilled(w, sender, base, quote, otype, price, sellAmount, id)
    requires LimitOrderCall(w, sender, base, quote, otype, price, sellAmount, id).Ok?
    ensures Coherent(LimitOrderCall(w, sender, base, quote, otype, price, sellAmount, id).value, {})
  {
    hide Coherent, PairsOk, Placeable, Place, LimitOrderCall, Matched, Admitted, OrderOf;
    CoherentParts(w);
    LimitOrderPlaced(w, sender, base, quote, otype, price, sellAmount, id);
    MatchedKeeps(w, w.pairOf[(base, quote)], OrderOf(sender, base, quote, otype, price, sellAmount, id));
  }

  /** In a sorted book the level of a queued order is where its price belongs. */
  lemma QueuedLevel(b: Book, o: Order, i: nat)
    requires Sorted(b) && QueuedAt(b.Side(o.otype), i, o)
    ensures InsertIndex(o.otype, b.Side(o.otype), o.price) == i
  {
  }

  /** Every unfinished order is where a cancellation looks for it. */
  lemma UnfinishedInList(w: World, id: OrderId)
    requires Coherent(w, {}) && id in w.orders && !w.orders[id].IsFinished()
    ensures var o := w.orders[id];
            && (o.base, o.quote) in w.pairOf
            && var p := w.pairOf[(o.base, o.quote)];
               InList(w, p, o) && p in w.pairs && w.pairs[p] == Pair(o.base, o.quote)
  {
    hide Orderly, Backed, TradesOk, BookOk, PairOk, OrderOk, Sorted;
    var o := w.orders[id];
    assert Queued(w, o) && StoredOk(w, id);
    var p := w.pairOf[(o.base, o.quote)];
    var j :| QueuedAt(w.books[p].Side(o.otype), j, o);
    BookSorted(w.orders, w.pairs[p], w.books[p]);
    QueuedLevel(w.books[p], o, j);
  }

  lemma BookSorted(orders: map<OrderId, Order>, p: Pair, b: Book)
    requires BookOk(orders, p, b)
    ensures Sorted(b)
  {
  }

  /** The cancellation of an unfinished order by its owner never fails. */
  lemma CancelReady(w: World, sender: AccountId, id: OrderId)
    requires Coherent(w, {})
    requires id in w.orders && w.orders[id].owner == sender && !w.orders[id].IsFinished()
    ensures CancelCall(w, sender, id).Ok?
  {
    hide Coherent, OrderOk, Unfreeze, Cancel, InList;
    UnfinishedInList(w, id);
    CoherentParts(w);
    StoredNow(w, id);
    CancelBacked(w, w.orders[id]);
  }

  lemma CancelCallKeeps(w: World, sender: AccountId, id: OrderId)
    requires Coherent(w, {}) && Covered(w, CancelLimitOrder(sender, id)) && CancelCall(w, sender, id).Ok?
    ensures id in w.orders
    ensures var o, w' := w.orders[id], CancelCall(w, sender, id).value;
            && Coherent(w', {}) && w'.ledger.balance == w.ledger.balance && w'.ledger.supply == w.ledger.supply
            && w'.orders == w.orders[id := o.(status := Canceled)] && w'.trades == w.trades
  {
    assert id in w.orders && w.orders[id].owner == sender && !w.orders[id].IsFinished();
    var o := w.orders[id];
    assert SharesLevel(w, o);
    hide Coherent, Unfreeze, CanceledLevel, Retain, OrderOk, QueuedAt, InsertIndex, Covered;
    UnfinishedInList(w, id);
    CoherentParts(w);
    StoredNow(w, id);
    var p := w.pairOf[(o.base, o.quote)];
    QueuedIndex(w.books[p].Side(o.otype), LevelIndex(w, p, o), o);
    CancelKeeps(w, p, o, LevelIndex(w, p, o));
  }

  lemma QueuedIndex(levels: seq<Level>, i: int, o: Order)
    requires QueuedAt(levels, i, o)
    ensures 0 <= i < |levels| && levels[i].price == o.price && o.id in levels[i].orders
  {
  }

  lemma NextKeeps(w: World, c: Call)
    requires Coherent(w, {}) && Covered(w, c)
    ensures Coherent(Next(w, c), {})
  {
    hide Coherent, LimitOrderCall, CancelCall, TradePairCall, TransferCall, SharesLevel;
    if Perform(w, c).Ok? {
      match c
      case IssueToken(sender, token, totalSupply) => IssueKeeps(w, sender, token, totalSupply);
      case TransferToken(sender, to, token, amount) => TransferKeeps(w, sender, to, token, amount);
      case CreateTradePair(sender, base, quote, pair) => TradePairKeeps(w, sender, base, quote, pair);
      case CreateLimitOrder(sender, base, quote, otype, price, sellAmount, order) =>
        LimitOrderKeeps(w, sender, base, quote, otype, price, sellAmount, order);
      case CancelLimitOrder(sender, order) => CancelCallKeeps(w, sender, order);
    }
  }

  lemma GenesisOk()
    ensures Inv(GENESIS)
  {
  }

  /** Everything is in order in every state that covered calls lead to, whoever traded with whom. */
  lemma {:induction false} RunKeeps(calls: seq<Call>)
    requires AllCovered(GENESIS, calls)
    ensures Coherent(Run(GENESIS, calls), {})
  {
    hide Coherent, Covered, Perform;
    if calls == [] {
      GenesisOk();
    } else {
      RunKeeps(calls[..|calls| - 1]);
      NextKeeps(Run(GENESIS, calls[..|calls| - 1]), calls[|calls| - 1]);
    }
  }
}

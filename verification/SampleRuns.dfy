/** Runs from genesis that show what can happen: orders trade; an account that trades with itself creates money,
    or leaves `u128`; filled orders leave dust behind; and a level's stored amount wraps. */
module SampleRuns {
  import opened Base
  import opened Words
  import opened Orders
  import opened FillMath
  import opened Ledger
  import opened Books
  import opened Settlement
  import opened World
  import opened Matching
  import opened TradeInvariants
  import opened Engine
  import opened Operations
  import opened Transitions
  import opened LifeCycle
  import opened Conservation
  import opened Guarantees
  import S = Sums

  // ---------- Runs, call by call ----------

  lemma RunMore(calls: seq<Call>, c: Call)
    requires AllCovered(GENESIS, calls) && Covered(Run(GENESIS, calls), c)
    ensures AllCovered(GENESIS, calls + [c]) && Run(GENESIS, calls + [c]) == Next(Run(GENESIS, calls), c)
  {
    hide Covered, Next;
    assert (calls + [c])[..|calls|] == calls;
  }

  /** Account 0 issues the base token, account `seller` the quote token, and account 0 lists the pair. */
  function Listing(bases: nat, quotes: nat, seller: AccountId): seq<Call> {
    [IssueToken(0, 0, bases), IssueToken(seller, 1, quotes), CreateTradePair(0, 0, 1, 0)]
  }

  /** The pair is there, and its issuers still have all of the two tokens, free and frozen. */
  ghost predicate Stands(w: World, seller: AccountId, freeBase: nat, frozenBase: nat, freeQuote: nat, frozenQuote: nat)
  {
    && w.pairs == map[0 := Pair(0, 1)] && w.pairOf == map[(0, 1) := 0]
    && 0 in w.ledger.supply && w.ledger.supply[0] == freeBase + frozenBase
    && 1 in w.ledger.supply && w.ledger.supply[1] == freeQuote + frozenQuote
    && Holds(w.ledger, (0, 0), freeBase, frozenBase) && Holds(w.ledger, (seller, 1), freeQuote, frozenQuote)
  }

  ghost predicate Holds(l: Ledger, h: Holding, free: nat, frozen: nat) {
    h in l.free && l.free[h] == free && S.Get(l.frozen, h) == frozen && S.Get(l.balance, h) == free + frozen
  }

  lemma ListingLeads(bases: nat, quotes: nat, seller: AccountId)
    requires bases <= U128_MAX && quotes <= U128_MAX
    ensures AllCovered(GENESIS, Listing(bases, quotes, seller))
    ensures var w := Run(GENESIS, Listing(bases, quotes, seller));
            Stands(w, seller, bases, 0, quotes, 0) && w.orders == map[] && w.books == map[] && w.trades == []
  {
    hide AllCovered, Run, Covered, Next, Stands;
    var c0, c1 := IssueToken(0, 0, bases), IssueToken(seller, 1, quotes);
    var c2 := CreateTradePair(0, 0, 1, 0);
    NoCalls();
    ListingSteps(bases, quotes, seller);
    assert [] + [c0] == [c0] && [c0] + [c1] == [c0, c1] && [c0, c1] + [c2] == Listing(bases, quotes, seller);
    RunMore([], c0);
    RunMore([c0], c1);
    RunMore([c0, c1], c2);
  }

  lemma NoCalls()
    ensures AllCovered(GENESIS, []) && Run(GENESIS, []) == GENESIS
  {
  }

  lemma ListingSteps(bases: nat, quotes: nat, seller: AccountId)
    requires bases <= U128_MAX && quotes <= U128_MAX
    ensures var c0, c1 := IssueToken(0, 0, bases), IssueToken(seller, 1, quotes);
            var c2 := CreateTradePair(0, 0, 1, 0);
            var w1 := Next(GENESIS, c0);
            var w2 := Next(w1, c1);
            var w := Next(w2, c2);
            && Covered(GENESIS, c0) && Covered(w1, c1) && Covered(w2, c2)
            && Stands(w, seller, bases, 0, quotes, 0) && w.orders == map[] && w.books == map[] && w.trades == []
  {
  }

  /** A new order of the pair, with exact amounts. */
  predicate Plain(o: Order) {
    && o == NewOrder(o.id, 0, 1, o.owner, o.price, o.sellAmount, o.buyAmount, o.otype)
    && 0 < o.price < U128_MAX && 0 < o.sellAmount <= U128_MAX && 0 < o.buyAmount <= U128_MAX
    && ExactAmounts(o.otype, o.price, o.sellAmount, o.buyAmount)
  }

  function CallOf(o: Order): Call {
    CreateLimitOrder(o.owner, 0, 1, o.otype, o.price, o.sellAmount, o.id)
  }

  /** The owner of a plain order has the funds for it. */
  ghost predicate Offers(w: World, o: Order) {
    && Plain(o) && o.id !in w.orders
    && w.pairs == map[0 := Pair(0, 1)] && w.pairOf == map[(0, 1) := 0]
    && o.SellToken() in w.ledger.supply && (o.owner, o.SellToken()) in w.ledger.free
    && o.sellAmount <= w.ledger.free[(o.owner, o.SellToken())]
  }

  lemma OfferPlaced(w: World, o: Order)
    requires Coherent(w, {}) && Offers(w, o)
    ensures Freeze(w.ledger, o.owner, o.SellToken(), o.sellAmount).Ok? && Placeable(w, 0, o)
    ensures Acceptable(w, o.owner, 0, 1, o.otype, o.price, o.sellAmount)
    ensures LimitOrderCall(w, o.owner, 0, 1, o.otype, o.price, o.sellAmount, o.id) == Matched(w, 0, o)
  {
    hide Coherent, Orderly, PairsOk, EnsureCounterpartyAmountBounds, ExactAmounts, Matched, Freeze, LimitOrderCall;
    CoherentParts(w);
    AdmissionExact(o.otype, o.price, o.sellAmount);
    FreezeExact(w.ledger, o.owner, o.SellToken(), o.sellAmount);
    LimitOrderPlaced(w, o.owner, 0, 1, o.otype, o.price, o.sellAmount, o.id);
  }

  lemma NextIs(w: World, c: Call)
    requires c.CreateLimitOrder? && c.order !in w.orders && c.price < U128_MAX
    ensures var r := LimitOrderCall(w, c.sender, c.base, c.quote, c.otype, c.price, c.sellAmount, c.order);
            r.Ok? ==> Covered(w, c) && Next(w, c) == r.value
  {
    hide LimitOrderCall;
  }

  lemma OfferNext(w: World, o: Order)
    requires Coherent(w, {}) && Offers(w, o)
    requires Freeze(w.ledger, o.owner, o.SellToken(), o.sellAmount).Ok? && Matched(w, 0, o).Ok?
    ensures Covered(w, CallOf(o)) && Next(w, CallOf(o)) == Matched(w, 0, o).value
  {
    hide Coherent, ExactAmounts, Matched, Freeze, LimitOrderCall, OrderOk, Acceptable, Covered, Next;
    OfferPlaced(w, o);
    NextIs(w, CallOf(o));
  }

  lemma FreezeHolds(l: Ledger, owner: AccountId, token: TokenId, amount: nat, h: Holding, free: nat, frozen: nat)
    requires Freeze(l, owner, token, amount).Ok? && Holds(l, h, free, frozen)
    ensures var l' := Freeze(l, owner, token, amount).value;
            if h == (owner, token) then amount <= free && Holds(l', h, free - amount, frozen + amount)
            else Holds(l', h, free, frozen)
  {
  }

  /** What an offer that finds the other side empty leads to. */
  ghost predicate Queues(w: World, w': World, o: Order) {
    && Freeze(w.ledger, o.owner, o.SellToken(), o.sellAmount).Ok?
    && var b := Opened(w.books, 0)[0];
       w' == w.(ledger := Freeze(w.ledger, o.owner, o.SellToken(), o.sellAmount).value,
                orders := w.orders[o.id := o],
                books := Opened(w.books, 0)[0 := b.WithSide(o.otype,
                  Enqueued(o.otype, b.Side(o.otype), o.price, o.id, o.sellAmount, o.buyAmount))])
  }

  lemma Rests(w: World, o: Order)
    requires Coherent(w, {}) && Offers(w, o) && Opened(w.books, 0)[0].Side(o.otype.Not()) == []
    ensures Covered(w, CallOf(o)) && Queues(w, Next(w, CallOf(o)), o)
  {
    hide Coherent, Poised, Freeze, ExactAmounts, OrderOk, Covered, Next, Enqueued, CanTrade, LimitOrderCall, Acceptable;
    OfferPlaced(w, o);
    PlaceKeeps(w, 0, o);
    var placed := Place(w, 0, o);
    MatchUnfold(placed, 0, o.id);
    assert !Crossing(placed, 0, o.id) && Match(placed, 0, o.id) == placed;
    OfferNext(w, o);
  }

  // ---------- One trade ----------

  /** The next trade of a placed offer is with order `m`. */
  ghost predicate Faces(w: World, o: Order, m: Order) {
    && m.id in w.orders && w.orders[m.id] == m && m.id != o.id && 0 < m.price
    && 0 in w.books && w.books[0].Side(o.otype.Not()) != []
    && var l := w.books[0].Side(o.otype.Not())[0];
       l.orders != [] && l.orders[0] == m.id && PriceMatched(o.price, o.otype, l.price)
  }

  lemma FacesCrosses(w: World, o: Order, m: Order)
    requires Placeable(w, 0, o) && Faces(w, o, m)
    ensures var placed := Place(w, 0, o);
            && 0 in placed.books && o.id in placed.orders && placed.orders[o.id] == o
            && Crossing(placed, 0, o.id) && Opposite(placed, 0, o.id) == w.books[0].Side(o.otype.Not())
            && Opposite(placed, 0, o.id)[0].orders != [] && Front(placed, 0, o.id) == m.id
            && m.id in placed.orders && placed.orders[m.id] == m
            && placed.ledger == Freeze(w.ledger, o.owner, o.SellToken(), o.sellAmount).value
  {
    hide Freeze, ExactAmounts, Slack;
  }

  /** What the trade leads to. */
  ghost predicate TradesWith(w: World, w1: World, o: Order, m: Order) {
    && Faces(w, o, m)
    && var f := WrappingExAmount(m, o);
       var levels := w.books[0].Side(o.otype.Not());
       && FillFits(f, o, m)
       && w1.orders == w.orders[o.id := AfterFill(o, GiveOf(f, o.otype), HaveOf(f, o.otype))]
                               [m.id := AfterFill(m, GiveOf(f, m.otype), HaveOf(f, m.otype))]
       && m.id in w1.orders
       && w1.books == w.books[0 := w.books[0].WithSide(o.otype.Not(),
                        SideAfter(levels, m, f, w1.orders[m.id].IsFinished()))]
       && w1.trades == w.trades + [TradeOf(0, o, m, o.id, m.id, f)]
       && w1.pairs == w.pairs && w1.pairOf == w.pairOf
  }

  lemma TradesOnce(w: World, o: Order, m: Order)
    requires Coherent(w, {}) && Placeable(w, 0, o) && Faces(w, o, m)
    requires 0 in Place(w, 0, o).books && o.id in Place(w, 0, o).orders && CanTrade(Place(w, 0, o), 0, o.id)
    ensures var w1 := TradeOnce(Place(w, 0, o), 0, o.id);
            && 0 in w1.books && o.id in w1.orders && Poised(w1, 0, o.id) && TradesWith(w, w1, o, m)
            && Match(Place(w, 0, o), 0, o.id) == Match(w1, 0, o.id)
  {
    hide Coherent, Poised, Freeze, OrderOk, Settle, TradeOnce, Crossing, CanTrade, Match, AfterFill, RestOf, SideAfter,
      FillFits, SameTerms, Priority, CalculateExAmount, WrappingExAmount;
    PlaceKeeps(w, 0, o);
    FacesCrosses(w, o, m);
    var placed := Place(w, 0, o);
    MatchUnfold(placed, 0, o.id);
    TradeProgress(placed, 0, o.id);
    TradeIsTraded(placed, 0, o.id);
    FillIs(placed, 0, o.id, m);
    assert placed.books == w.books;
  }

  /** An order that another account's order faces trades with it, unless the first product leaves `u128`. */
  lemma Meets(w: World, o: Order, m: Order)
    requires Coherent(w, {}) && Sound(w.ledger) && Offers(w, o) && Faces(w, o, m)
    requires o.owner != m.owner && FirstProduct(o, m) <= U128_MAX
    ensures Freeze(w.ledger, o.owner, o.SellToken(), o.sellAmount).Ok? && Placeable(w, 0, o)
    ensures var placed := Place(w, 0, o);
            && 0 in placed.books && o.id in placed.orders && placed.orders[o.id] == o
            && Poised(placed, 0, o.id) && MayTrade(placed, 0, o.id)
            && Opposite(placed, 0, o.id) != [] && Opposite(placed, 0, o.id)[0].orders != []
            && Front(placed, 0, o.id) == m.id && m.id in placed.orders && placed.orders[m.id] == m
            && Sound(placed.ledger) && Sound(TradeOnce(placed, 0, o.id).ledger)
  {
    hide Coherent, Sound, Poised, Freeze, Plain, OrderOk, CanTrade, Acceptable, LimitOrderCall, Place, TradeOnce,
      FirstProduct, Inflated;
    OfferPlaced(w, o);
    PlaceKeeps(w, 0, o);
    PlaceSound(w, 0, o);
    FacesCrosses(w, o, m);
    AnotherExact(Place(w, 0, o), 0, o.id);
    TradeSoundExact(Place(w, 0, o), 0, o.id);
  }

  lemma FillIs(w: World, p: PairId, id: OrderId, m: Order)
    requires CanTrade(w, p, id) && w.orders[Front(w, p, id)] == m
    ensures 0 < m.price && SettledFront(w, p, id).fill == WrappingExAmount(m, w.orders[id])
  {
    var o := w.orders[id];
    FillExact(m, o);
    hide CalculateExAmount, WrappingExAmount, Exchanged, Closed, Started, Deducted, FillProducts;
  }

  /** What a trade does to one holding. */
  lemma TradeMoney(w: World, p: PairId, id: OrderId, h: Holding)
    requires p in w.books && id in w.orders && Poised(w, p, id) && MayTrade(w, p, id)
    ensures Opposite(w, p, id) != [] && Opposite(w, p, id)[0].orders != [] && Front(w, p, id) in w.orders
    ensures CanTrade(w, p, id) && id in TradeOnce(w, p, id).orders && Front(w, p, id) in TradeOnce(w, p, id).orders
    ensures var w1, f := TradeOnce(w, p, id), SettledFront(w, p, id).fill;
            var t, m := w.orders[id], w.orders[Front(w, p, id)];
            && S.Get(w1.ledger.balance, h) == S.Get(w.ledger.balance, h)
                 + Shift(h, t.owner, m.owner, t.SellToken(), GiveOf(f, t.otype))
                 + Shift(h, m.owner, t.owner, m.SellToken(), HaveOf(f, t.otype))
            && S.Get(w1.ledger.frozen, h) == S.Get(w.ledger.frozen, h)
                 - (if h == (t.owner, t.SellToken()) then t.remainedSell - w1.orders[id].remainedSell else 0)
                 - (if h == (m.owner, m.SellToken()) then m.remainedSell - w1.orders[m.id].remainedSell else 0)
            && S.Get(w1.ledger.balance, h) == S.Get(w1.ledger.free, h) + S.Get(w1.ledger.frozen, h)
            && w.ledger.free.Keys <= w1.ledger.free.Keys && w1.ledger.supply == w.ledger.supply
  {
    hide Poised, Crossing, Settle, Tradable, AfterFill, FillFits, NotQueued, SideAfter, Shift, TokensKnown, Bounded,
      LevelsAfter, LevelOk, OrderOk, BothFilled;
    NextTradable(w, p, id);
    ExecutionIds(w, p, id);
    TradeIsTraded(w, p, id);
    SettleMoves(w.ledger, w.orders[id].SellToken(), w.orders[Front(w, p, id)].SellToken(),
                w.orders[id], w.orders[Front(w, p, id)], h);
  }

  lemma ExecutionIds(w: World, p: PairId, id: OrderId)
    requires p in w.books && id in w.orders && Poised(w, p, id) && MayTrade(w, p, id)
    ensures Opposite(w, p, id) != [] && Opposite(w, p, id)[0].orders != [] && Front(w, p, id) in w.orders
    ensures w.orders[Front(w, p, id)].id == Front(w, p, id) && w.orders[id].id == id
    ensures CanTrade(w, p, id)
    ensures id in TradeOnce(w, p, id).orders && Front(w, p, id) in TradeOnce(w, p, id).orders
  {
    hide Poised, LevelOk, OrderOk, Settle, LevelsAfter;
    FrontFacts(w, p, id);
  }

  // ---------- A run that trades ----------

  const BID := NewOrder(0, 0, 1, 0, 1, 1, PRICE_FACTOR, Buy)

  function Ask(owner: AccountId): Order {
    NewOrder(1, 0, 1, owner, 1, PRICE_FACTOR, 1, Sell)
  }

  /** The bid waits in the book. */
  ghost predicate Quoted(w: World) {
    w.orders == map[0 := BID] && w.books == map[0 := Book([LevelOf(1, PRICE_FACTOR, 1, 0)], [])] && w.trades == []
  }

  lemma BidLeads(quotes: nat, seller: AccountId)
    requires quotes <= U128_MAX
    ensures var calls := Listing(1, quotes, seller) + [CallOf(BID)];
            && AllCovered(GENESIS, calls)
            && Stands(Run(GENESIS, calls), seller, 0, 1, quotes, 0) && Quoted(Run(GENESIS, calls))
  {
    hide Coherent, AllCovered, Run, Listing, Freeze, Covered, Next;
    ListingLeads(1, quotes, seller);
    RunKeeps(Listing(1, quotes, seller));
    var w := Run(GENESIS, Listing(1, quotes, seller));
    Rests(w, BID);
    RunMore(Listing(1, quotes, seller), CallOf(BID));
    FreezeHolds(w.ledger, 0, 0, 1, (0, 0), 1, 0);
    FreezeHolds(w.ledger, 0, 0, 1, (seller, 1), quotes, 0);
    assert Enqueued(Buy, [], 1, 0, 1, PRICE_FACTOR) == [LevelOf(1, PRICE_FACTOR, 1, 0)];
    FreezeKeeps(w.ledger, 0, 0, 1);
  }

  lemma FreezeKeeps(l: Ledger, owner: AccountId, token: TokenId, amount: nat)
    requires Freeze(l, owner, token, amount).Ok?
    ensures Freeze(l, owner, token, amount).value.supply == l.supply
  {
  }

  lemma UnitFill()
    ensures WrappingFillAmounts(1, PRICE_FACTOR, 1, 1) == Fill(1, PRICE_FACTOR)
    ensures forall x <- Products(1, PRICE_FACTOR, 1, 1) :: x <= U128_MAX
  {
  }

  lemma AskFill(a: AccountId)
    ensures WrappingExAmount(BID, Ask(a)) == Fill(1, PRICE_FACTOR)
    ensures forall x <- FillProducts(Ask(a), BID) :: x <= U128_MAX
    ensures AfterFill(Ask(a), PRICE_FACTOR, 1).status == Filled && AfterFill(BID, 1, PRICE_FACTOR).status == Filled
  {
    UnitFill();
  }

  lemma AskFaces(w: World, a: AccountId)
    requires Quoted(w)
    ensures Faces(w, Ask(a), BID) && Plain(Ask(a)) && Ask(a).id !in w.orders
  {
  }

  /** Whether the ask of an account trades with the bid depends only on the two balances that the trade
      credits. */
  lemma AskExact(w: World, a: AccountId)
    requires Coherent(w, {}) && Quoted(w) && Offers(w, Ask(a))
    ensures Freeze(w.ledger, a, 1, PRICE_FACTOR).Ok? && Placeable(w, 0, Ask(a))
    ensures var placed := Place(w, 0, Ask(a));
            && 0 in placed.books && 1 in placed.orders && Poised(placed, 0, 1) && Crossing(placed, 0, 1)
            && (CanTrade(placed, 0, 1) <==>
                  S.Get(w.ledger.balance, (0, 1)) + PRICE_FACTOR <= U128_MAX &&
                  S.Get(w.ledger.balance, (a, 0)) + 1 <= U128_MAX)
  {
    hide Coherent, Poised, Freeze, OrderOk, Crossing, CanTrade, Acceptable, LimitOrderCall, FillProducts,
      WrappingExAmount, Quoted, Offers, Faces;
    OfferPlaced(w, Ask(a));
    AskFaces(w, a);
    AskFill(a);
    PlaceKeeps(w, 0, Ask(a));
    FacesCrosses(w, Ask(a), BID);
    TradeExact(Place(w, 0, Ask(a)), 0, 1);
  }

  /** Where it does, both orders are filled. */
  lemma AskFills(w: World, a: AccountId)
    requires Coherent(w, {}) && Quoted(w) && Offers(w, Ask(a))
    requires S.Get(w.ledger.balance, (0, 1)) + PRICE_FACTOR <= U128_MAX
    requires S.Get(w.ledger.balance, (a, 0)) + 1 <= U128_MAX
    ensures Freeze(w.ledger, a, 1, PRICE_FACTOR).Ok? && Placeable(w, 0, Ask(a))
    ensures var placed := Place(w, 0, Ask(a));
            && 0 in placed.books && 1 in placed.orders && CanTrade(placed, 0, 1)
            && Matched(w, 0, Ask(a)) == Ok(TradeOnce(placed, 0, 1))
            && TradesWith(w, TradeOnce(placed, 0, 1), Ask(a), BID)
  {
    hide Coherent, Poised, Freeze, OrderOk, Crossing, CanTrade, Acceptable, LimitOrderCall, FillProducts,
      WrappingExAmount, Quoted, Offers, Faces, TradeOnce, Match, Placeable;
    AskExact(w, a);
    AskFaces(w, a);
    AskFill(a);
    TradesOnce(w, Ask(a), BID);
    var w1 := TradeOnce(Place(w, 0, Ask(a)), 0, 1);
    assert w1.orders[1].status == Filled;
    FilledStops(w1, 0, 1);
  }

  lemma FilledStops(w: World, p: PairId, id: OrderId)
    requires p in w.books && id in w.orders && w.orders[id].status.Filled?
    ensures !Crossing(w, p, id) && Match(w, p, id) == w
  {
  }

  /** Two accounts trade. */
  lemma SomeRunTrades()
    ensures var calls := Listing(1, PRICE_FACTOR, 1) + [CallOf(BID)] + [CallOf(Ask(1))];
            && AllCovered(GENESIS, calls)
            && var w := Run(GENESIS, calls);
               |w.trades| == 1 && 0 in w.orders && 1 in w.orders && w.orders[0].status == w.orders[1].status == Filled
  {
    hide Coherent, AllCovered, Run, Listing, Covered, Next, Matched, Freeze, TradeOnce, Sound, WrappingExAmount;
    var calls := Listing(1, PRICE_FACTOR, 1) + [CallOf(BID)];
    BidLeads(PRICE_FACTOR, 1);
    RunKeeps(calls);
    RunSoundExact(calls);
    var w := Run(GENESIS, calls);
    AskFaces(w, 1);
    OthersHold(w.ledger);
    AskFills(w, 1);
    AskFill(1);
    OfferNext(w, Ask(1));
    RunMore(calls, CallOf(Ask(1)));
  }

  /** Neither account has the other one's token. */
  lemma OthersHold(l: Ledger)
    requires Sound(l) && 0 in l.supply && 1 in l.supply && Holds(l, (0, 0), 0, 1) && Holds(l, (1, 1), PRICE_FACTOR, 0)
    requires l.supply[0] == 1 && l.supply[1] == PRICE_FACTOR
    ensures S.Get(l.balance, (0, 1)) == 0 && S.Get(l.balance, (1, 0)) == 0
  {
    hide Orderly, Conserved;
    WithinSupply(l, 0, 1, 0);
    WithinSupply(l, 0, 1, 1);
  }

  // ---------- Trading with oneself ----------

  /** An account that trades with itself ends up with twice the supply of both tokens. */
  lemma TradeWithSelf()
    requires 2 * PRICE_FACTOR <= U128_MAX
    ensures var calls := Listing(1, PRICE_FACTOR, 0) + [CallOf(BID)] + [CallOf(Ask(0))];
            && AllCovered(GENESIS, calls)
            && var l := Run(GENESIS, calls).ledger;
               && 0 in l.supply && l.supply[0] == 1 && 1 in l.supply && l.supply[1] == PRICE_FACTOR
               && S.Get(l.balance, (0, 0)) == 2 && S.Get(l.balance, (0, 1)) == 2 * PRICE_FACTOR
  {
    hide Coherent, AllCovered, Run, Listing, Covered, Next, Matched, Freeze, TradeOnce, Poised, Crossing, CanTrade,
      WrappingExAmount, Place, Placeable;
    var calls := Listing(1, PRICE_FACTOR, 0) + [CallOf(BID)];
    BidLeads(PRICE_FACTOR, 0);
    RunKeeps(calls);
    var w := Run(GENESIS, calls);
    AskFaces(w, 0);
    AskFills(w, 0);
    AskFill(0);
    AskExact(w, 0);
    OfferNext(w, Ask(0));
    RunMore(calls, CallOf(Ask(0)));
    var placed := Place(w, 0, Ask(0));
    PlaceKeeps(w, 0, Ask(0));
    FacesCrosses(w, Ask(0), BID);
    FillIs(placed, 0, 1, BID);
    TradeMoney(placed, 0, 1, (0, 0));
    TradeMoney(placed, 0, 1, (0, 1));
  }

  /** With the largest possible supply, the same trade would leave `u128`: the order is acceptable, but its
      balance wraps. */
  lemma TradeWithSelfOverflows()
    ensures var calls := Listing(1, U128_MAX, 0) + [CallOf(BID)];
            && AllCovered(GENESIS, calls)
            && var w := Run(GENESIS, calls);
               && Acceptable(w, 0, 0, 1, Sell, 1, PRICE_FACTOR)
               && Perform(w, CallOf(Ask(0))) == Err(ArithmeticOverflow)
  {
    hide Coherent, AllCovered, Run, Listing, Freeze, Poised, Crossing, CanTrade, Match, Place, Acceptable,
      LimitOrderCall, NextError;
    var calls := Listing(1, U128_MAX, 0) + [CallOf(BID)];
    BidLeads(U128_MAX, 0);
    RunKeeps(calls);
    var w := Run(GENESIS, calls);
    OfferPlaced(w, Ask(0));
    AskExact(w, 0);
    MatchUnfold(Place(w, 0, Ask(0)), 0, 1);
    TradeExact(Place(w, 0, Ask(0)), 0, 1);
  }

  // ---------- A stored amount that is not exact ----------

  const HALF: nat := U128_MAX / 2

  function Half(id: OrderId): Order {
    NewOrder(id, 0, 1, 1, 2 * PRICE_FACTOR, HALF, 2 * HALF, Sell)
  }

  lemma HalfExact(a: nat, f: nat)
    ensures a * (2 * f) == (2 * a) * f
  {
  }

  lemma HalfPlain(id: OrderId)
    requires 2 * PRICE_FACTOR < U128_MAX
    ensures Plain(Half(id))
  {
    HalfExact(HALF, PRICE_FACTOR);
  }

  function HalfLevel(): Level {
    LevelOf(2 * PRICE_FACTOR, 2 * HALF, HALF, 0)
  }

  lemma HalfQueues()
    ensures Enqueued(Sell, [], 2 * PRICE_FACTOR, 0, HALF, 2 * HALF) == [HalfLevel()]
    ensures Enqueued(Sell, [HalfLevel()], 2 * PRICE_FACTOR, 1, HALF, 2 * HALF)
         == [Joined(HalfLevel(), 1, HALF, 2 * HALF)]
  {
  }

  lemma FirstHalf()
    requires 2 * PRICE_FACTOR < U128_MAX
    ensures var calls := Listing(1, U128_MAX, 1) + [CallOf(Half(0))];
            && AllCovered(GENESIS, calls)
            && var w := Run(GENESIS, calls);
               && Stands(w, 1, 1, 0, U128_MAX - HALF, HALF)
               && w.orders == map[0 := Half(0)] && w.books == map[0 := Book([], [HalfLevel()])]
  {
    hide Coherent, AllCovered, Run, Listing, Freeze, Covered, Next, Enqueued, Plain;
    ListingLeads(1, U128_MAX, 1);
    RunKeeps(Listing(1, U128_MAX, 1));
    var w := Run(GENESIS, Listing(1, U128_MAX, 1));
    HalfPlain(0);
    HalfQueues();
    Rests(w, Half(0));
    RunMore(Listing(1, U128_MAX, 1), CallOf(Half(0)));
    FreezeHolds(w.ledger, 1, 1, HALF, (0, 0), 1, 0);
    FreezeHolds(w.ledger, 1, 1, HALF, (1, 1), U128_MAX, 0);
    FreezeKeeps(w.ledger, 1, 1, HALF);
  }

  /** Two asks at price 2:1 that offer half of the largest possible supply each want more together than a
      `u128` holds; what the level stores as wanted is not what they want. */
  lemma AskAmountsWrap()
    requires 2 * PRICE_FACTOR < U128_MAX
    ensures var calls := Listing(1, U128_MAX, 1) + [CallOf(Half(0))] + [CallOf(Half(1))];
            && AllCovered(GENESIS, calls)
            && var w := Run(GENESIS, calls);
               && 0 in w.books && |w.books[0].asks| == 1
               && var l := w.books[0].asks[0];
                  && (forall id <- l.orders :: id in w.orders)
                  && SumBuy(w.orders, l.orders) == 4 * HALF > U128_MAX
                  && NodeOf(l).buyAmount == 4 * HALF - TWO_TO_128
  {
    hide Coherent, AllCovered, Run, Listing, Freeze, Covered, Next, Enqueued, Plain, SumBuy, Wrap;
    var calls := Listing(1, U128_MAX, 1) + [CallOf(Half(0))];
    FirstHalf();
    RunKeeps(calls);
    var w := Run(GENESIS, calls);
    HalfPlain(1);
    HalfQueues();
    Rests(w, Half(1));
    RunMore(calls, CallOf(Half(1)));
    TwoWants(map[0 := Half(0)][1 := Half(1)], 0, 1);
    WrapAlike(4 * HALF, 4 * HALF - TWO_TO_128, -1);
  }

  lemma TwoWants(orders: map<OrderId, Order>, a: OrderId, b: OrderId)
    requires a in orders && b in orders
    ensures SumBuy(orders, [a] + [b]) == orders[a].remainedBuy + orders[b].remainedBuy
    ensures SumSell(orders, [a] + [b]) == orders[a].remainedSell + orders[b].remainedSell
  {
    assert ([a] + [b])[1..] == [b] && [b][1..] == [];
    assert SumBuy(orders, [b]) == orders[b].remainedBuy + SumBuy(orders, []);
    assert SumSell(orders, [b]) == orders[b].remainedSell + SumSell(orders, []);
  }

  // ---------- Dust ----------

  const CHEAP := NewOrder(0, 0, 1, 1, PRICE_FACTOR, 1, 1, Sell)
  const GENEROUS := NewOrder(1, 0, 1, 0, 2 * PRICE_FACTOR, 4, 2, Buy)
  const FOLLOWER := NewOrder(2, 0, 1, 0, 2 * PRICE_FACTOR, 2, 1, Buy)
  const FILLER := NewOrder(3, 0, 1, 1, 2 * PRICE_FACTOR, 1, 2, Sell)

  /** The generous bid after it has bought half of what it wants for half of its limit price. */
  const SAVED := GENEROUS.(remainedSell := 3, remainedBuy := 1, status := PartialFilled)

  lemma DustOrders()
    requires 6 * PRICE_FACTOR <= U128_MAX
    ensures Plain(CHEAP) && Plain(GENEROUS) && Plain(FOLLOWER) && Plain(FILLER)
  {
  }

  lemma DustFills()
    requires 6 * PRICE_FACTOR <= U128_MAX
    ensures WrappingExAmount(CHEAP, GENEROUS) == Fill(1, 1) && WrappingExAmount(SAVED, FILLER) == Fill(2, 1)
  {
    assert FloorDiv(2 * PRICE_FACTOR, PRICE_FACTOR) == 2 by { DivUnique(2 * PRICE_FACTOR, PRICE_FACTOR, 2); }
    assert FloorDiv(PRICE_FACTOR, PRICE_FACTOR) == 1 by { DivUnique(PRICE_FACTOR, PRICE_FACTOR, 1); }
    assert FloorDiv(2 * PRICE_FACTOR, 2 * PRICE_FACTOR) == 1 by { DivUnique(2 * PRICE_FACTOR, 2 * PRICE_FACTOR, 1); }
    hide FloorDiv, Wrap;
  }

  function SavedLevel(): Level {
    LevelOf(2 * PRICE_FACTOR, 1, 3, 1)
  }

  lemma DustQueues()
    ensures Enqueued(Sell, [], PRICE_FACTOR, 0, 1, 1) == [LevelOf(PRICE_FACTOR, 1, 1, 0)]
    ensures Enqueued(Buy, [], 2 * PRICE_FACTOR, 1, 3, 1) == [SavedLevel()]
    ensures Enqueued(Buy, [SavedLevel()], 2 * PRICE_FACTOR, 2, 2, 1) == [Joined(SavedLevel(), 2, 2, 1)]
  {
  }

  lemma CheapLeads()
    requires 6 * PRICE_FACTOR <= U128_MAX
    ensures var calls := Listing(6, 2, 1) + [CallOf(CHEAP)];
            && AllCovered(GENESIS, calls)
            && var w := Run(GENESIS, calls);
               Cheap(w) && Funds(w.ledger, 6, 0, 1, 1)
  {
    hide Coherent, AllCovered, Run, Listing, Freeze, Covered, Next, Enqueued, Plain;
    ListingLeads(6, 2, 1);
    RunKeeps(Listing(6, 2, 1));
    var w := Run(GENESIS, Listing(6, 2, 1));
    DustOrders();
    DustQueues();
    Rests(w, CHEAP);
    RunMore(Listing(6, 2, 1), CallOf(CHEAP));
    FreezeHolds(w.ledger, 1, 1, 1, (0, 0), 6, 0);
    FreezeHolds(w.ledger, 1, 1, 1, (1, 1), 2, 0);
    FreezeKeeps(w.ledger, 1, 1, 1);
  }

  /** What is frozen behind the generous bid, and what is left free, before it is matched or after. */
  ghost predicate Funds(l: Ledger, freeBase: nat, frozenBase: nat, freeQuote: nat, frozenQuote: nat) {
    && 0 in l.supply && 1 in l.supply
    && Holds(l, (0, 0), freeBase, frozenBase) && Holds(l, (1, 1), freeQuote, frozenQuote)
  }

  ghost predicate Cheap(w: World) {
    && w.pairs == map[0 := Pair(0, 1)] && w.pairOf == map[(0, 1) := 0]
    && w.orders == map[0 := CHEAP] && w.books == map[0 := Book([], [LevelOf(PRICE_FACTOR, 1, 1, 0)])]
    && w.trades == []
  }

  /** After the generous bid has traded with the cheap ask. */
  ghost predicate Bought(w: World) {
    && w.pairs == map[0 := Pair(0, 1)] && w.pairOf == map[(0, 1) := 0]
    && w.orders == map[0 := AfterFill(CHEAP, 1, 1), 1 := SAVED] && w.books == map[0 := Book([], [])]
    && |w.trades| == 1
  }

  lemma DustProducts()
    requires 6 * PRICE_FACTOR <= U128_MAX
    ensures FirstProduct(GENEROUS, CHEAP) <= U128_MAX && FirstProduct(FILLER, SAVED) <= U128_MAX
  {
  }

  lemma GenerousFaces(w: World)
    requires 6 * PRICE_FACTOR <= U128_MAX && Cheap(w) && Funds(w.ledger, 6, 0, 1, 1)
    ensures Offers(w, GENEROUS) && Faces(w, GENEROUS, CHEAP)
  {
    hide Plain;
    DustOrders();
  }

  lemma PlacedLedger(w: World, o: Order)
    requires Freeze(w.ledger, o.owner, o.SellToken(), o.sellAmount).Ok?
    ensures Place(w, 0, o).ledger == Freeze(w.ledger, o.owner, o.SellToken(), o.sellAmount).value
  {
    hide Freeze;
  }

  lemma GenerousPlaced(w: World)
    requires 6 * PRICE_FACTOR <= U128_MAX
    requires Coherent(w, {}) && Sound(w.ledger) && Cheap(w) && Funds(w.ledger, 6, 0, 1, 1)
    ensures Offers(w, GENEROUS) && Placeable(w, 0, GENEROUS) && Faces(w, GENEROUS, CHEAP)
    ensures var placed := Place(w, 0, GENEROUS);
            && 0 in placed.books && 1 in placed.orders && Poised(placed, 0, 1) && MayTrade(placed, 0, 1)
            && placed.orders[1] == GENEROUS && Funds(placed.ledger, 2, 4, 1, 1)
            && Opposite(placed, 0, 1) != [] && Opposite(placed, 0, 1)[0].orders != []
            && Front(placed, 0, 1) == 0 && 0 in placed.orders && placed.orders[0] == CHEAP
            && Sound(placed.ledger) && Sound(TradeOnce(placed, 0, 1).ledger)
  {
    hide Coherent, Sound, Poised, Freeze, Plain, OrderOk, CanTrade, Place, Offers, Faces, FirstProduct;
    GenerousFaces(w);
    DustProducts();
    Meets(w, GENEROUS, CHEAP);
    PlacedLedger(w, GENEROUS);
    FreezeHolds(w.ledger, 0, 0, 4, (0, 0), 6, 0);
    FreezeHolds(w.ledger, 0, 0, 4, (1, 1), 1, 1);
    FreezeKeeps(w.ledger, 0, 0, 4);
  }

  lemma GenerousMoney(w: World, p: World)
    requires 6 * PRICE_FACTOR <= U128_MAX
    requires 0 in p.books && 1 in p.orders && Poised(p, 0, 1) && MayTrade(p, 0, 1)
    requires p.orders[1] == GENEROUS && Funds(p.ledger, 2, 4, 1, 1)
    requires Opposite(p, 0, 1) != [] && Opposite(p, 0, 1)[0].orders != []
    requires Front(p, 0, 1) == 0 && 0 in p.orders && p.orders[0] == CHEAP
    requires CanTrade(p, 0, 1) && w == TradeOnce(p, 0, 1) && 1 in w.orders && w.orders[1] == SAVED
    requires 0 in w.orders && w.orders[0].remainedSell == 0
    ensures Funds(w.ledger, 2, 3, 1, 0)
  {
    hide Poised, CanTrade, TradeOnce, Crossing, WrappingExAmount;
    DustFills();
    FillIs(p, 0, 1, CHEAP);
    TradeMoney(p, 0, 1, (0, 0));
    TradeMoney(p, 0, 1, (1, 1));
  }

  lemma GenerousBuys(w: World)
    requires 6 * PRICE_FACTOR <= U128_MAX
    requires Coherent(w, {}) && Sound(w.ledger) && Cheap(w) && Funds(w.ledger, 6, 0, 1, 1)
    ensures Placeable(w, 0, GENEROUS) && Offers(w, GENEROUS)
    ensures var placed := Place(w, 0, GENEROUS);
            && 0 in placed.books && 1 in placed.orders && CanTrade(placed, 0, 1)
            && var w1 := TradeOnce(placed, 0, 1);
               && Bought(w1) && Funds(w1.ledger, 2, 3, 1, 0) && Poised(w1, 0, 1) && Sound(w1.ledger)
               && Match(placed, 0, 1) == Match(w1, 0, 1)
  {
    hide Coherent, Sound, Poised, Freeze, Crossing, CanTrade, TradeOnce, Match, WrappingExAmount, Place, OrderOk,
      Offers, Faces, FillFits, Funds, Opposite, MeetsAnother, Inflated;
    GenerousPlaced(w);
    DustFills();
    TradesOnce(w, GENEROUS, CHEAP);
    var w1 := TradeOnce(Place(w, 0, GENEROUS), 0, 1);
    assert w1.orders == map[0 := CHEAP][1 := SAVED][0 := AfterFill(CHEAP, 1, 1)];
    assert [LevelOf(PRICE_FACTOR, 1, 1, 0)][1..] == [];
    GenerousMoney(w1, Place(w, 0, GENEROUS));
  }

  /** The rest of the generous bid waits in the book. */
  ghost predicate Saved(w: World) {
    && w.pairs == map[0 := Pair(0, 1)] && w.pairOf == map[(0, 1) := 0]
    && w.orders == map[0 := AfterFill(CHEAP, 1, 1), 1 := SAVED] && w.books == map[0 := Book([SavedLevel()], [])]
    && |w.trades| == 1
  }

  lemma GenerousLeads(w: World)
    requires 6 * PRICE_FACTOR <= U128_MAX
    requires Coherent(w, {}) && Sound(w.ledger) && Cheap(w) && Funds(w.ledger, 6, 0, 1, 1)
    ensures Covered(w, CallOf(GENEROUS))
    ensures var w' := Next(w, CallOf(GENEROUS)); Saved(w') && Funds(w'.ledger, 2, 3, 1, 0) && Sound(w'.ledger)
  {
    hide Coherent, Sound, Poised, Freeze, Covered, Next, Enqueued, CanTrade, TradeOnce, Match, Crossing, Place,
      OrderOk, Offers, Matched, Funds;
    GenerousBuys(w);
    DustQueues();
    var w1 := TradeOnce(Place(w, 0, GENEROUS), 0, 1);
    AsksGone(w1);
    MatchUnfold(w1, 0, 1);
    MatchedIs(w, GENEROUS, w1);
    OfferPlaced(w, GENEROUS);
    OfferNext(w, GENEROUS);
  }

  lemma AsksGone(w: World)
    requires 0 in w.books && 1 in w.orders && w.orders[1].otype.Buy? && w.books[0].asks == []
    ensures !Crossing(w, 0, 1)
  {
  }

  lemma MatchedIs(w: World, o: Order, m: World)
    requires Placeable(w, 0, o) && 0 in Place(w, 0, o).books && o.id in Place(w, 0, o).orders
    requires Match(Place(w, 0, o), 0, o.id) == m && 0 in m.books && o.id in m.orders
    requires !Crossing(m, 0, o.id) && !m.orders[o.id].status.Filled?
    ensures Matched(w, 0, o) == Ok(Enqueue(m, 0, o.id))
  {
    hide OrderOk, Freeze, Match, Crossing;
  }

  /** Another bid has joined the rest of the generous one. */
  ghost predicate Crowded(w: World) {
    && w.pairs == map[0 := Pair(0, 1)] && w.pairOf == map[(0, 1) := 0]
    && w.orders == map[0 := AfterFill(CHEAP, 1, 1), 1 := SAVED][2 := FOLLOWER]
    && w.books == map[0 := Book([Joined(SavedLevel(), 2, 2, 1)], [])] && |w.trades| == 1
  }

  lemma FollowerLeads(w: World)
    requires 6 * PRICE_FACTOR <= U128_MAX
    requires Coherent(w, {}) && Sound(w.ledger) && Saved(w) && Funds(w.ledger, 2, 3, 1, 0)
    ensures Covered(w, CallOf(FOLLOWER))
    ensures var w' := Next(w, CallOf(FOLLOWER)); Crowded(w') && Funds(w'.ledger, 0, 5, 1, 0) && Sound(w'.ledger)
  {
    hide Coherent, Orderly, Conserved, Freeze, Covered, Next, Enqueued, Plain;
    FreezeExact(w.ledger, 0, 0, 2);
    DustOrders();
    DustQueues();
    Rests(w, FOLLOWER);
    FreezeHolds(w.ledger, 0, 0, 2, (0, 0), 2, 3);
    FreezeHolds(w.ledger, 0, 0, 2, (1, 1), 1, 0);
    FreezeKeeps(w.ledger, 0, 0, 2);
  }

  /** The ask fills the generous bid, which still offered more than it had to give. */
  lemma FillerFaces(w: World)
    requires 6 * PRICE_FACTOR <= U128_MAX
    requires Coherent(w, {}) && Sound(w.ledger) && Crowded(w) && Funds(w.ledger, 0, 5, 1, 0)
    ensures Offers(w, FILLER) && Placeable(w, 0, FILLER) && Faces(w, FILLER, SAVED)
    ensures var placed := Place(w, 0, FILLER);
            0 in placed.books && 3 in placed.orders && Poised(placed, 0, 3) && CanTrade(placed, 0, 3)
  {
    hide Coherent, Sound, Poised, Freeze, Plain, OrderOk, CanTrade, Place, FirstProduct;
    DustOrders();
    DustProducts();
    Meets(w, FILLER, SAVED);
  }

  /** What is left of the level: it stores 3 as offered, and its only order offers 2. */
  ghost predicate Dusty(w: World) {
    && w.books == map[0 := Book([Level(2 * PRICE_FACTOR, 1, 3, [2], 0, 1)], [])]
    && 2 in w.orders && w.orders[2] == FOLLOWER
    && |w.trades| == 2 && w.trades[1].makerBack == 1
  }

  lemma FillerTrades(w: World)
    requires 6 * PRICE_FACTOR <= U128_MAX
    requires Coherent(w, {}) && Sound(w.ledger) && Crowded(w) && Funds(w.ledger, 0, 5, 1, 0)
    ensures Covered(w, CallOf(FILLER)) && Dusty(Next(w, CallOf(FILLER)))
  {
    hide Coherent, Sound, Poised, Freeze, Crossing, CanTrade, TradeOnce, Match, WrappingExAmount, Place, OrderOk,
      Offers, Faces, FillFits, Funds, Opposite, Covered, Next;
    FillerFaces(w);
    DustFills();
    TradesOnce(w, FILLER, SAVED);
    var w1 := TradeOnce(Place(w, 0, FILLER), 0, 3);
    DustyAfter();
    assert w1.orders[3].status == Filled && w1.orders[1].status == Filled;
    FilledStops(w1, 0, 3);
    OfferNext(w, FILLER);
  }

  lemma DustyAfter()
    ensures SideAfter([Joined(SavedLevel(), 2, 2, 1)], SAVED, Fill(2, 1), true)
         == [Level(2 * PRICE_FACTOR, 1, 3, [2], 0, 1)]
  {
    assert Joined(SavedLevel(), 2, 2, 1).orders == [1, 2] && [1, 2][1..] == [2];
  }

  lemma DustySums(w: World)
    requires Dusty(w)
    ensures 0 in w.books && |w.books[0].bids| == 1
    ensures var l := w.books[0].bids[0];
            && (forall id <- l.orders :: id in w.orders)
            && NodeOf(l).sellAmount == 3 && SumSell(w.orders, l.orders) == 2
  {
    assert [2][1..] == [];
  }

  lemma CheapSound(w: World)
    requires SoundExactly(w) && w.trades == []
    ensures Sound(w.ledger)
  {
    hide Sound, Inflated;
  }

  function DustCalls(): seq<Call> {
    Listing(6, 2, 1) + [CallOf(CHEAP)] + [CallOf(GENEROUS)] + [CallOf(FOLLOWER)] + [CallOf(FILLER)]
  }

  /** A bid buys half of what it wants at a better price than its own, waits with another one, and is filled:
      what it did not need stays in the stored sell amount of the level. */
  lemma DustStays()
    requires 6 * PRICE_FACTOR <= U128_MAX
    ensures AllCovered(GENESIS, DustCalls())
    ensures var w := Run(GENESIS, DustCalls());
            && 0 in w.books && |w.books[0].bids| == 1
            && var l := w.books[0].bids[0];
               && (forall id <- l.orders :: id in w.orders)
               && NodeOf(l).sellAmount == 3 && SumSell(w.orders, l.orders) == 2
  {
    hide Coherent, Sound, SoundExactly, AllCovered, Run, Listing, Covered, Next, Saved, Crowded, Dusty, Funds,
      SumSell, NodeOf;
    var calls := Listing(6, 2, 1) + [CallOf(CHEAP)];
    CheapLeads();
    RunKeeps(calls);
    RunSoundExact(calls);
    CheapSound(Run(GENESIS, calls));
    GenerousLeads(Run(GENESIS, calls));
    RunMore(calls, CallOf(GENEROUS));
    calls := calls + [CallOf(GENEROUS)];
    RunKeeps(calls);
    FollowerLeads(Run(GENESIS, calls));
    RunMore(calls, CallOf(FOLLOWER));
    calls := calls + [CallOf(FOLLOWER)];
    RunKeeps(calls);
    FillerTrades(Run(GENESIS, calls));
    RunMore(calls, CallOf(FILLER));
    DustySums(Run(GENESIS, DustCalls()));
  }
}

/** Runs from genesis that lead to what the code does not withstand: a stored amount that is reduced below zero,
    an order at the largest price, and the cancellation of the only order of a level. */
module FailingRuns {
  import opened Base
  import opened Words
  import opened Orders
  import opened FillMath
  import opened Ledger
  import opened Books
  import opened Settlement
  import opened World
  import opened Matching
  import opened TradeInvariants
  import opened Engine
  import opened Operations
  import opened Transitions
  import opened Conservation
  import opened Reductions
  import opened Aggregates
  import opened Guarantees
  import opened SampleRuns
  import Exchange

  // ---------- A stored amount that falls short ----------

  /** The size of the large orders of the run, in base units, and what that is in quote units at price 1. */
  datatype Deal = Deal(lot: nat, worth: nat)

  predicate Priced(d: Deal) {
    d.worth == d.lot * PRICE_FACTOR
  }

  /** More than half of 2^128 quote units, but not almost all. */
  predicate Fits(d: Deal) {
    && Priced(d) && 2 <= d.lot && 2 * d.lot < d.worth && PRICE_FACTOR < d.worth
    && TWO_TO_128 + 2 * PRICE_FACTOR <= 2 * d.worth && d.worth + 2 * PRICE_FACTOR + 2 <= U128_MAX
  }

  /** There is such a deal for every price factor but 1 and the largest ones; the runtime's is 10^8. */
  lemma SomeDeal() returns (d: Deal)
    requires 3 <= PRICE_FACTOR && 16 * PRICE_FACTOR <= U128_MAX
    ensures Fits(d)
  {
    var lot := FloorDiv(3 * (U128_MAX / 4), PRICE_FACTOR);
    d := Deal(lot, lot * PRICE_FACTOR);
    if lot < 2 {
      MulMono(lot, 1, PRICE_FACTOR);
    }
    MulMono(3, PRICE_FACTOR, lot);
  }

  /** All that account 0 will sell. */
  function Issued(d: Deal): nat {
    2 * d.lot + 1
  }

  lemma OneLess(d: Deal)
    requires Priced(d) && 1 <= d.lot
    ensures (d.lot - 1) * PRICE_FACTOR == d.worth - PRICE_FACTOR
  {
  }

  /** A bid that pays a lot for one quote unit, and an ask that is content with a price of 1. */
  function Rich(d: Deal): Order
    requires 1 <= d.lot
  {
    NewOrder(0, 0, 1, 0, (d.lot - 1) * PRICE_FACTOR, d.lot - 1, 1, Buy)
  }

  function Large(d: Deal, id: OrderId): Order {
    NewOrder(id, 0, 1, 1, 1, d.worth, d.lot, Sell)
  }

  function Holder(): Order {
    NewOrder(2, 0, 1, 1, 1, PRICE_FACTOR, 1, Sell)
  }

  function Unit(id: OrderId): Order {
    NewOrder(id, 0, 1, 0, 1, 1, PRICE_FACTOR, Buy)
  }

  function Last(d: Deal): Order {
    NewOrder(6, 0, 1, 0, 1, d.lot, d.worth, Buy)
  }

  lemma ShortPlain(d: Deal, id: OrderId)
    requires Fits(d)
    ensures Plain(Rich(d)) && Plain(Large(d, id)) && Plain(Holder()) && Plain(Unit(id)) && Plain(Last(d))
  {
    OneLess(d);
  }

  lemma RichFill(d: Deal)
    requires Fits(d)
    ensures WrappingExAmount(Rich(d), Large(d, 1)) == Fill(d.lot - 1, 1)
    ensures FirstProduct(Large(d, 1), Rich(d)) <= U128_MAX
  {
    OneLess(d);
    hide Wrap;
    var p := (d.lot - 1) * PRICE_FACTOR;
    MulMono(1, d.lot - 1, PRICE_FACTOR);
    DivUnique(p, PRICE_FACTOR, d.lot - 1);
    DivUnique(p, p, 1);
    hide FloorDiv;
  }

  lemma UnitFills(id: OrderId, m: Order)
    requires m.otype.Sell? && m.price == 1 && m.remainedBuy == 1
    ensures WrappingExAmount(m, Unit(id)) == Fill(1, PRICE_FACTOR) && FirstProduct(Unit(id), m) <= U128_MAX
  {
    UnitFill();
  }

  lemma LastFill(d: Deal)
    requires Fits(d)
    ensures WrappingExAmount(Large(d, 4), Last(d)) == Fill(d.lot, d.worth)
    ensures FirstProduct(Last(d), Large(d, 4)) <= U128_MAX
  {
    DivUnique(d.worth, 1, d.worth);
    DivUnique(d.worth, PRICE_FACTOR, d.lot);
    hide Wrap, FloorDiv;
  }

  /** What account 0 has of the base token and account 1 of the quote token, free and frozen. */
  datatype Purses = Purses(freeBase: nat, frozenBase: nat, freeQuote: nat, frozenQuote: nat)

  ghost predicate Held(l: Ledger, have: Purses) {
    && 0 in l.supply && 1 in l.supply
    && Holds(l, (0, 0), have.freeBase, have.frozenBase) && Holds(l, (1, 1), have.freeQuote, have.frozenQuote)
  }

  /** One pair with its book, in a sound ledger. */
  ghost predicate Stage(w: World, b: Book, have: Purses) {
    && w.pairs == map[0 := Pair(0, 1)] && w.pairOf == map[(0, 1) := 0] && Opened(w.books, 0) == map[0 := b]
    && Sound(w.ledger) && Held(w.ledger, have)
  }

  /** Bids are account 0's, and asks account 1's. */
  ghost predicate Affords(o: Order, have: Purses) {
    && Plain(o)
    && if o.otype.Buy? then o.owner == 0 && o.sellAmount <= have.freeBase
       else o.owner == 1 && o.sellAmount <= have.freeQuote
  }

  function Frozen(o: Order, have: Purses): Purses
    requires if o.otype.Buy? then o.sellAmount <= have.freeBase else o.sellAmount <= have.freeQuote
  {
    if o.otype.Buy? then
      have.(freeBase := have.freeBase - o.sellAmount, frozenBase := have.frozenBase + o.sellAmount)
    else
      have.(freeQuote := have.freeQuote - o.sellAmount, frozenQuote := have.frozenQuote + o.sellAmount)
  }

  lemma FreezePurses(l: Ledger, o: Order, have: Purses)
    requires Held(l, have) && Affords(o, have) && Freeze(l, o.owner, o.SellToken(), o.sellAmount).Ok?
    ensures Held(Freeze(l, o.owner, o.SellToken(), o.sellAmount).value, Frozen(o, have))
  {
    hide Freeze, Holds, ExactAmounts;
    FreezeHolds(l, o.owner, o.SellToken(), o.sellAmount, (0, 0), have.freeBase, have.frozenBase);
    FreezeHolds(l, o.owner, o.SellToken(), o.sellAmount, (1, 1), have.freeQuote, have.frozenQuote);
    FreezeKeeps(l, o.owner, o.SellToken(), o.sellAmount);
  }

  lemma FreezeStage(w: World, o: Order, b: Book, have: Purses)
    requires Coherent(w, {}) && Stage(w, b, have) && Affords(o, have)
    requires Freeze(w.ledger, o.owner, o.SellToken(), o.sellAmount).Ok?
    ensures var l := Freeze(w.ledger, o.owner, o.SellToken(), o.sellAmount).value;
            Sound(l) && Held(l, Frozen(o, have))
  {
    hide Coherent, Orderly, Conserved, Freeze, Affords, Held;
    CoherentParts(w);
    FreezePurses(w.ledger, o, have);
    FreezeExact(w.ledger, o.owner, o.SellToken(), o.sellAmount);
  }

  lemma Affordable(w: World, o: Order, b: Book, have: Purses)
    requires Stage(w, b, have) && Affords(o, have) && o.id !in w.orders
    ensures Offers(w, o)
  {
    hide Sound, ExactAmounts;
  }

  function Joining(b: Book, o: Order): Book {
    b.WithSide(o.otype, Enqueued(o.otype, b.Side(o.otype), o.price, o.id, o.remainedSell, o.remainedBuy))
  }

  lemma QueuedStage(w: World, w': World, o: Order, b: Book)
    requires Queues(w, w', o) && Plain(o) && Opened(w.books, 0) == map[0 := b]
    ensures Opened(w'.books, 0) == map[0 := Joining(b, o)] && w'.orders == w.orders[o.id := o]
    ensures Freeze(w.ledger, o.owner, o.SellToken(), o.sellAmount).Ok?
    ensures w'.ledger == Freeze(w.ledger, o.owner, o.SellToken(), o.sellAmount).value
    ensures w'.pairs == w.pairs && w'.pairOf == w.pairOf && 0 in w'.books
  {
    hide Freeze, Enqueued, ExactAmounts;
  }

  /** An order that finds the other side empty is queued. */
  lemma Waits(w: World, o: Order, b: Book, have: Purses)
    requires Coherent(w, {}) && Stage(w, b, have) && Affords(o, have)
    requires o.id !in w.orders && b.Side(o.otype.Not()) == []
    ensures Covered(w, CallOf(o)) && Next(w, CallOf(o)).orders == w.orders[o.id := o] && 0 in Next(w, CallOf(o)).books
    ensures Stage(Next(w, CallOf(o)), Joining(b, o), Frozen(o, have))
  {
    hide Coherent, Sound, Freeze, Covered, Next, ExactAmounts, Held, Joining, Queues, Offers;
    Affordable(w, o, b, have);
    Rests(w, o);
    QueuedStage(w, Next(w, CallOf(o)), o, b);
    FreezeStage(w, o, b, have);
  }

  /** What a trade of a bid and an ask leaves, which offer less afterwards by `bid` and `ask`. */
  function Dealt(have: Purses, f: Fill, bid: nat, ask: nat): Purses
    requires f.base <= bid <= have.frozenBase && f.quote <= ask <= have.frozenQuote
  {
    Purses(have.freeBase + bid - f.base, have.frozenBase - bid, have.freeQuote + ask - f.quote, have.frozenQuote - ask)
  }

  lemma TradePurses(w: World, id: OrderId, m: Order, have: Purses, f: Fill, bid: nat, ask: nat)
    requires 0 in w.books && id in w.orders && Poised(w, 0, id) && MayTrade(w, 0, id) && Held(w.ledger, have)
    requires Opposite(w, 0, id) != [] && Opposite(w, 0, id)[0].orders != []
    requires Front(w, 0, id) == m.id && m.id in w.orders && w.orders[m.id] == m
    requires var o := w.orders[id];
             && o.base == m.base == 0 && o.quote == m.quote == 1 && m.otype == o.otype.Not()
             && o.owner == (if o.otype.Buy? then 0 else 1) && m.owner == (if o.otype.Buy? then 1 else 0)
    requires CanTrade(w, 0, id) && SettledFront(w, 0, id).fill == f
    requires f.base <= bid <= have.frozenBase && f.quote <= ask <= have.frozenQuote
    requires var w1, o := TradeOnce(w, 0, id), w.orders[id];
             && id in w1.orders && m.id in w1.orders
             && o.remainedSell - w1.orders[id].remainedSell == (if o.otype.Buy? then bid else ask)
             && m.remainedSell - w1.orders[m.id].remainedSell == (if o.otype.Buy? then ask else bid)
    ensures Held(TradeOnce(w, 0, id).ledger, Dealt(have, f, bid, ask))
  {
    hide Poised, CanTrade, TradeOnce, Crossing;
    TradeMoney(w, 0, id, (0, 0));
    TradeMoney(w, 0, id, (1, 1));
  }

  /** An ask that waits at price 1 for one more base unit. */
  ghost predicate AlmostFilled(w: World, m: Order, l: Level) {
    && m.id in w.orders && w.orders[m.id] == m
    && m.otype.Sell? && m.owner == 1 && m.base == 0 && m.quote == 1 && m.price == 1 && m.remainedBuy == 1
    && l.price == 1 && 1 < |l.orders| && l.orders[0] == m.id
  }

  /** The level without the front order, which got one base unit for `PRICE_FACTOR` quote units. */
  function FrontGone(l: Level, m: Order): Level
    requires l.orders != [] && PRICE_FACTOR <= m.remainedSell
  {
    Reduced(l, PRICE_FACTOR, 1, m.remainedSell - PRICE_FACTOR).(orders := l.orders[1..])
  }

  /** What is left when a unit bid has filled an ask that offered `ask`. */
  function UnitDealt(have: Purses, ask: nat): Purses
    requires 1 <= have.freeBase && PRICE_FACTOR <= ask <= have.frozenQuote
  {
    Purses(have.freeBase - 1, have.frozenBase, have.freeQuote + ask - PRICE_FACTOR, have.frozenQuote - ask)
  }

  lemma UnitFaces(w: World, id: OrderId, m: Order, l: Level, have: Purses)
    requires Coherent(w, {}) && Stage(w, Book([], [l]), have) && 0 in w.books && id !in w.orders
    requires AlmostFilled(w, m, l) && 1 <= have.freeBase
    ensures Affords(Unit(id), have) && Offers(w, Unit(id)) && Faces(w, Unit(id), m)
  {
    hide Coherent, Sound, Held, Offers;
    Affordable(w, Unit(id), Book([], [l]), have);
  }

  lemma UnitAfter(id: OrderId, m: Order, l: Level)
    requires m.remainedBuy == 1 && m.otype.Sell? && 1 < |l.orders| && FillFits(Fill(1, PRICE_FACTOR), Unit(id), m)
    ensures AfterFill(Unit(id), 1, PRICE_FACTOR).status == Filled && AfterFill(m, PRICE_FACTOR, 1).IsFinished()
    ensures AfterFill(Unit(id), 1, PRICE_FACTOR).remainedSell == AfterFill(m, PRICE_FACTOR, 1).remainedSell == 0
    ensures PRICE_FACTOR <= m.remainedSell
    ensures SideAfter([l], m, Fill(1, PRICE_FACTOR), true) == [FrontGone(l, m)]
  {
    hide OrderOk;
  }

  /** A unit bid fills the front ask of a level, and takes it out. */
  lemma UnitBuys(w: World, id: OrderId, m: Order, l: Level, have: Purses)
    requires Coherent(w, {}) && Stage(w, Book([], [l]), have) && 0 in w.books && id !in w.orders
    requires AlmostFilled(w, m, l) && 1 <= have.freeBase && have.frozenBase == 0 && m.remainedSell <= have.frozenQuote
    ensures Covered(w, CallOf(Unit(id))) && PRICE_FACTOR <= m.remainedSell
    ensures var w' := Next(w, CallOf(Unit(id)));
            && Stage(w', Book([], [FrontGone(l, m)]), UnitDealt(have, m.remainedSell))
            && 0 in w'.books && w'.orders.Keys == w.orders.Keys + {id}
            && forall x <- w.orders.Keys :: x != m.id ==> w'.orders[x] == w.orders[x]
  {
    hide Coherent, Sound, Poised, Freeze, Crossing, CanTrade, TradeOnce, Match, WrappingExAmount, Place, OrderOk,
      Offers, Faces, FillFits, Held, Opposite, Covered, Next, AfterFill, SideAfter, FirstProduct, Affords;
    var o := Unit(id);
    UnitFaces(w, id, m, l, have);
    UnitFills(id, m);
    Meets(w, o, m);
    FreezeStage(w, o, Book([], [l]), have);
    TradesOnce(w, o, m);
    var placed := Place(w, 0, o);
    var w1 := TradeOnce(placed, 0, id);
    UnitAfter(id, m, l);
    FillIs(placed, 0, id, m);
    PlacedLedger(w, o);
    TradePurses(placed, id, m, Frozen(o, have), Fill(1, PRICE_FACTOR), 1, m.remainedSell);
    FilledStops(w1, 0, id);
    MatchedFilled(w, o, w1);
    OfferNext(w, o);
  }

  lemma MatchedFilled(w: World, o: Order, m: World)
    requires Placeable(w, 0, o) && 0 in Place(w, 0, o).books && o.id in Place(w, 0, o).orders
    requires Match(Place(w, 0, o), 0, o.id) == m && 0 in m.books && o.id in m.orders && m.orders[o.id].status.Filled?
    ensures Matched(w, 0, o) == Ok(m)
  {
    hide OrderOk, Freeze, Match;
  }

  // ---------- The run, call by call ----------

  /** What the accounts have after each step of the run. */
  function PurseAt(d: Deal, step: nat): Purses
    requires Fits(d)
  {
    match step
    case 0 => Purses(Issued(d), 0, U128_MAX, 0)
    case 1 => Purses(d.lot + 2, d.lot - 1, U128_MAX, 0)
    case 2 => Purses(d.lot + 2, 0, U128_MAX - d.worth, d.worth - 1)
    case 3 => Purses(d.lot + 2, 0, U128_MAX - d.worth - PRICE_FACTOR, d.worth - 1 + PRICE_FACTOR)
    case 4 => Purses(d.lot + 1, 0, U128_MAX - 1 - 2 * PRICE_FACTOR, PRICE_FACTOR)
    case 5 => Purses(d.lot + 1, 0, U128_MAX - 1 - 2 * PRICE_FACTOR - d.worth, PRICE_FACTOR + d.worth)
    case _ => Purses(d.lot, 0, U128_MAX - 1 - 2 * PRICE_FACTOR - d.worth, d.worth)
  }

  lemma PursesChange(d: Deal)
    requires Fits(d)
    ensures d.lot - 1 <= PurseAt(d, 0).freeBase && Frozen(Rich(d), PurseAt(d, 0)) == PurseAt(d, 1)
    ensures d.worth <= PurseAt(d, 1).freeQuote && Frozen(Large(d, 1), PurseAt(d, 1)).frozenBase == d.lot - 1
    ensures 1 <= Frozen(Large(d, 1), PurseAt(d, 1)).frozenQuote
    ensures Dealt(Frozen(Large(d, 1), PurseAt(d, 1)), Fill(d.lot - 1, 1), d.lot - 1, 1) == PurseAt(d, 2)
    ensures PRICE_FACTOR <= PurseAt(d, 2).freeQuote && Frozen(Holder(), PurseAt(d, 2)) == PurseAt(d, 3)
    ensures 1 <= PurseAt(d, 3).freeBase && PurseAt(d, 3).frozenBase == 0
    ensures PRICE_FACTOR <= d.worth - 1 <= PurseAt(d, 3).frozenQuote
    ensures UnitDealt(PurseAt(d, 3), d.worth - 1) == PurseAt(d, 4)
    ensures d.worth <= PurseAt(d, 4).freeQuote && Frozen(Large(d, 4), PurseAt(d, 4)) == PurseAt(d, 5)
    ensures 1 <= PurseAt(d, 5).freeBase && PurseAt(d, 5).frozenBase == 0
    ensures PRICE_FACTOR <= PurseAt(d, 5).frozenQuote && UnitDealt(PurseAt(d, 5), PRICE_FACTOR) == PurseAt(d, 6)
    ensures d.lot <= PurseAt(d, 6).freeBase
  {
    hide Priced;
  }

  /** The rich bid waits. */
  ghost predicate Stage1(d: Deal, w: World)
    requires Fits(d)
  {
    && Stage(w, Book([RichLevel(d)], []), PurseAt(d, 1)) && 0 in w.books && w.orders == map[0 := Rich(d)]
  }

  function RichLevel(d: Deal): Level
    requires Fits(d)
  {
    LevelOf(Rich(d).price, 1, d.lot - 1, 0)
  }

  function Calls1(d: Deal): seq<Call>
    requires 1 <= d.lot
  {
    Listing(Issued(d), U128_MAX, 1) + [CallOf(Rich(d))]
  }

  lemma RichWaits(d: Deal)
    requires Fits(d)
    ensures AllCovered(GENESIS, Calls1(d)) && Stage1(d, Run(GENESIS, Calls1(d)))
  {
    hide Coherent, AllCovered, Run, Listing, Freeze, Covered, Next, Priced, Held, Sound, SoundExactly, PurseAt,
      Frozen, Dealt, UnitDealt, Plain;
    ShortPlain(d, 0);
    var start := Listing(Issued(d), U128_MAX, 1);
    ListingLeads(Issued(d), U128_MAX, 1);
    RunKeeps(start);
    RunSoundExact(start);
    var w := Run(GENESIS, start);
    CheapSound(w);
    StandsHolds(d, w);
    PursesChange(d);
    Waits(w, Rich(d), EMPTY, PurseAt(d, 0));
    RunMore(start, CallOf(Rich(d)));
    FirstBook(Rich(d));
  }

  lemma StandsHolds(d: Deal, w: World)
    requires Fits(d) && Stands(w, 1, Issued(d), 0, U128_MAX, 0)
    ensures Held(w.ledger, PurseAt(d, 0))
  {
    hide Priced;
  }

  lemma FirstBook(o: Order)
    ensures Joining(EMPTY, o) == EMPTY.WithSide(o.otype, [LevelOf(o.price, o.remainedBuy, o.remainedSell, o.id)])
  {
  }

  /** What is left of the first large ask once it has got almost all that it wants for one quote unit. */
  function Saver(d: Deal): Order
    requires Fits(d)
  {
    Large(d, 1).(remainedSell := d.worth - 1, remainedBuy := 1, status := PartialFilled)
  }

  function SaverLevel(d: Deal): Level
    requires Fits(d)
  {
    LevelOf(1, 1, Saver(d).remainedSell, 1)
  }

  lemma SaverFaces(d: Deal, w: World)
    requires Fits(d) && Coherent(w, {}) && Stage1(d, w)
    ensures Affords(Large(d, 1), PurseAt(d, 1)) && Offers(w, Large(d, 1)) && Faces(w, Large(d, 1), Rich(d))
  {
    hide Coherent, Sound, Held, Offers, Priced, PurseAt, Frozen, Dealt, UnitDealt;
    PursesChange(d);
    ShortPlain(d, 1);
    Affordable(w, Large(d, 1), Book([RichLevel(d)], []), PurseAt(d, 1));
  }

  lemma FilledUp(o: Order, give: nat, have: nat)
    requires have == o.remainedBuy && give <= o.remainedSell
    ensures AfterFill(o, give, have).status.Filled? && AfterFill(o, give, have).IsFinished()
    ensures AfterFill(o, give, have).remainedSell == 0
  {
  }

  lemma LoneGone(l: Level, m: Order, f: Fill)
    requires |l.orders| == 1
    ensures SideAfter([l], m, f, true) == []
  {
  }

  /** The first large ask has met the rich bid; the book is as given. */
  ghost predicate Stage2(d: Deal, w: World, b: Book)
    requires Fits(d)
  {
    Stage(w, b, PurseAt(d, 2)) && 0 in w.books && w.orders.Keys == {0, 1} && w.orders[1] == Saver(d)
  }

  lemma RichIs(d: Deal)
    requires Fits(d)
    ensures var o := Rich(d);
            && o.id == 0 && o.base == 0 && o.quote == 1 && o.owner == 0 && o.otype == Buy
            && o.remainedSell == d.lot - 1 && o.remainedBuy == 1
    ensures RichLevel(d).orders == [0]
  {
    hide Priced;
  }

  lemma SaverIs(d: Deal)
    requires Fits(d)
    ensures AfterFill(Large(d, 1), 1, d.lot - 1) == Saver(d)
    ensures Large(d, 1).remainedSell - Saver(d).remainedSell == 1
  {
    hide Priced;
  }

  lemma SaverTrades(d: Deal, w: World)
    requires Fits(d) && Coherent(w, {}) && Stage1(d, w)
    ensures Offers(w, Large(d, 1)) && Placeable(w, 0, Large(d, 1)) && Freeze(w.ledger, 1, 1, d.worth).Ok?
    ensures var placed := Place(w, 0, Large(d, 1));
            && 0 in placed.books && 1 in placed.orders && CanTrade(placed, 0, 1)
            && var w1 := TradeOnce(placed, 0, 1);
               Stage2(d, w1, EMPTY) && Poised(w1, 0, 1) && Match(placed, 0, 1) == Match(w1, 0, 1)
  {
    hide Coherent, Sound, Poised, Freeze, Crossing, CanTrade, TradeOnce, Match, WrappingExAmount, Place, OrderOk,
      Offers, Faces, FillFits, Held, Opposite, AfterFill, SideAfter, FirstProduct, Affords, Priced, Placeable,
      Rich, Saver, RichLevel, PurseAt, Frozen, Dealt, UnitDealt;
    var o, m, f := Large(d, 1), Rich(d), Fill(d.lot - 1, 1);
    SaverFaces(d, w);
    RichIs(d);
    RichFill(d);
    Meets(w, o, m);
    FreezeStage(w, o, Book([RichLevel(d)], []), PurseAt(d, 1));
    TradesOnce(w, o, m);
    var placed := Place(w, 0, o);
    FilledUp(m, d.lot - 1, 1);
    PursesChange(d);
    SaverIs(d);
    LoneGone(RichLevel(d), m, f);
    FillIs(placed, 0, 1, m);
    PlacedLedger(w, o);
    TradePurses(placed, 1, m, Frozen(o, PurseAt(d, 1)), f, d.lot - 1, 1);
  }

  lemma SaverSells(d: Deal, w: World)
    requires Fits(d) && Coherent(w, {}) && Stage1(d, w)
    ensures Covered(w, CallOf(Large(d, 1))) && Stage2(d, Next(w, CallOf(Large(d, 1))), Book([], [SaverLevel(d)]))
  {
    hide Coherent, Sound, Poised, Freeze, Crossing, CanTrade, TradeOnce, Match, Place, OrderOk, Offers, Held, Opposite,
      Covered, Next, Priced, Matched, Enqueued, Placeable, Stage1, SaverLevel, PurseAt;
    var o := Large(d, 1);
    SaverTrades(d, w);
    var w1 := TradeOnce(Place(w, 0, o), 0, 1);
    BidsGone(w1);
    MatchUnfold(w1, 0, 1);
    MatchedIs(w, o, w1);
    OfferPlaced(w, o);
    OfferNext(w, o);
    SaverQueues(d, w1);
  }

  lemma BidsGone(w: World)
    requires 0 in w.books && 1 in w.orders && w.orders[1].otype.Sell? && w.books[0].bids == []
    ensures !Crossing(w, 0, 1)
  {
  }

  lemma SaverQueues(d: Deal, w: World)
    requires Fits(d) && 0 in w.books && 1 in w.orders && w.orders[1] == Saver(d) && w.books[0] == EMPTY
    ensures Enqueue(w, 0, 1) == w.(books := w.books[0 := Book([], [SaverLevel(d)])])
  {
    hide Priced;
    FirstBook(Saver(d));
    assert w.orders[1].otype == Sell && w.books[0].Side(Sell) == [];
    assert Joining(EMPTY, Saver(d)) == Book([], [SaverLevel(d)]);
  }

  /** The level after another ask has joined, after the first one has been filled, and left most of its offer
      behind, after a second large ask has joined, and after the other one has been filled. */
  function Crowd(d: Deal): Level
    requires Fits(d)
  {
    Joined(SaverLevel(d), 2, PRICE_FACTOR, 1)
  }

  function Dusty(d: Deal): Level
    requires Fits(d)
  {
    Level(1, 1, d.worth - 1, [2], 0, d.worth - 1 - PRICE_FACTOR)
  }

  function Wrapped(d: Deal): Level
    requires Fits(d)
  {
    Joined(Dusty(d), 4, d.worth, d.lot)
  }

  function Short(d: Deal): Level
    requires Fits(d)
  {
    Level(1, d.lot, 2 * d.worth - 1 - PRICE_FACTOR, [4], 0, d.worth - 1 - PRICE_FACTOR)
  }

  lemma ShortLevels(d: Deal)
    requires Fits(d)
    ensures PRICE_FACTOR <= Saver(d).remainedSell
    ensures Joining(Book([], [SaverLevel(d)]), Holder()) == Book([], [Crowd(d)])
    ensures Crowd(d).orders == [1, 2] && FrontGone(Crowd(d), Saver(d)) == Dusty(d)
    ensures Joining(Book([], [Dusty(d)]), Large(d, 4)) == Book([], [Wrapped(d)])
    ensures Wrapped(d).orders == [2, 4] && FrontGone(Wrapped(d), Holder()) == Short(d)
  {
    hide Priced;
  }

  ghost predicate Stage3(d: Deal, w: World)
    requires Fits(d)
  {
    && Stage(w, Book([], [Crowd(d)]), PurseAt(d, 3))
    && 0 in w.books && w.orders.Keys == {0, 1, 2} && w.orders[1] == Saver(d) && w.orders[2] == Holder()
  }

  lemma HolderJoins(d: Deal, w: World)
    requires Fits(d) && Coherent(w, {}) && Stage2(d, w, Book([], [SaverLevel(d)]))
    ensures Covered(w, CallOf(Holder())) && Stage3(d, Next(w, CallOf(Holder())))
  {
    hide Coherent, Stage, Covered, Next, Priced, Joining, Crowd, Saver, SaverLevel, PurseAt, Frozen, Dealt, UnitDealt;
    ShortPlain(d, 2);
    ShortLevels(d);
    PursesChange(d);
    Waits(w, Holder(), Book([], [SaverLevel(d)]), PurseAt(d, 2));
  }

  lemma SaverSize(d: Deal)
    requires Fits(d)
    ensures Saver(d).remainedSell == d.worth - 1 && Saver(d).id == 1
  {
  }

  ghost predicate Stage4(d: Deal, w: World)
    requires Fits(d)
  {
    && Stage(w, Book([], [Dusty(d)]), PurseAt(d, 4))
    && 0 in w.books && w.orders.Keys == {0, 1, 2, 3} && w.orders[2] == Holder()
  }

  lemma SaverLeaves(d: Deal, w: World)
    requires Fits(d) && Coherent(w, {}) && Stage3(d, w)
    ensures Covered(w, CallOf(Unit(3))) && Stage4(d, Next(w, CallOf(Unit(3))))
  {
    hide Coherent, Stage, Covered, Next, Priced, Dusty, FrontGone, PurseAt, Frozen, Dealt, UnitDealt;
    ShortLevels(d);
    SaverSize(d);
    PursesChange(d);
    assert AlmostFilled(w, Saver(d), Crowd(d));
    UnitBuys(w, 3, Saver(d), Crowd(d), PurseAt(d, 3));
  }

  ghost predicate Stage5(d: Deal, w: World)
    requires Fits(d)
  {
    && Stage(w, Book([], [Wrapped(d)]), PurseAt(d, 5))
    && 0 in w.books && w.orders.Keys == {0, 1, 2, 3, 4} && w.orders[2] == Holder() && w.orders[4] == Large(d, 4)
  }

  lemma LargeJoins(d: Deal, w: World)
    requires Fits(d) && Coherent(w, {}) && Stage4(d, w)
    ensures Covered(w, CallOf(Large(d, 4))) && Stage5(d, Next(w, CallOf(Large(d, 4))))
  {
    hide Coherent, Stage, Covered, Next, Priced, Joining, Dusty, Wrapped, PurseAt, Frozen, Dealt, UnitDealt;
    ShortPlain(d, 4);
    ShortLevels(d);
    PursesChange(d);
    Waits(w, Large(d, 4), Book([], [Dusty(d)]), PurseAt(d, 4));
  }

  ghost predicate Stage6(d: Deal, w: World)
    requires Fits(d)
  {
    && Stage(w, Book([], [Short(d)]), PurseAt(d, 6))
    && 0 in w.books && w.orders.Keys == {0, 1, 2, 3, 4, 5} && w.orders[4] == Large(d, 4)
  }

  lemma HolderLeaves(d: Deal, w: World)
    requires Fits(d) && Coherent(w, {}) && Stage5(d, w)
    ensures Covered(w, CallOf(Unit(5))) && Stage6(d, Next(w, CallOf(Unit(5))))
  {
    hide Coherent, Stage, Covered, Next, Priced, Short, FrontGone, PurseAt, Frozen, Dealt, UnitDealt;
    ShortLevels(d);
    PursesChange(d);
    assert AlmostFilled(w, Holder(), Wrapped(d));
    UnitBuys(w, 5, Holder(), Wrapped(d), PurseAt(d, 5));
  }

  lemma LastFaces(d: Deal, w: World)
    requires Fits(d) && Coherent(w, {}) && Stage6(d, w)
    ensures Offers(w, Last(d)) && Faces(w, Last(d), Large(d, 4))
  {
    hide Coherent, Sound, Held, Offers, Priced, PurseAt, Frozen, Dealt, UnitDealt;
    PursesChange(d);
    ShortPlain(d, 4);
    Affordable(w, Last(d), Book([], [Short(d)]), PurseAt(d, 6));
  }

  /** What is stored of the offer has wrapped. */
  lemma ShortStored(d: Deal)
    requires Fits(d)
    ensures NodeOf(Short(d)).sellAmount < d.worth
  {
    hide Wrap, Priced;
    var sell := 2 * d.worth - 1 - PRICE_FACTOR;
    WrapAlike(sell, sell - TWO_TO_128, -1);
  }

  lemma ShortOffers(d: Deal, w: World)
    requires Fits(d) && Stage6(d, w)
    ensures Sound(w.ledger) && 0 in w.books && |w.books[0].asks| == 1
    ensures var l := w.books[0].asks[0];
            && (forall id <- l.orders :: id in w.orders)
            && NodeOf(l).sellAmount < SumSell(w.orders, l.orders)
  {
    hide Priced, Sound, Held, NodeOf;
    ShortStored(d);
    assert w.books[0].asks == [Short(d)] && [4][1..] == [];
  }

  /** The order that now buys the large ask takes off more than is stored. */
  lemma LastTakes(d: Deal, w: World)
    requires Fits(d) && Coherent(w, {}) && Stage6(d, w)
    ensures Placeable(w, 0, Last(d)) && Covered(w, CallOf(Last(d)))
    ensures var placed := Place(w, 0, Last(d));
            && 0 in placed.books && 6 in placed.orders && MayTrade(placed, 0, 6)
            && !TakesStored(placed, 0, 6) && !NeverUnderflows(placed, 0, 6)
  {
    hide Coherent, Sound, Poised, Freeze, Crossing, CanTrade, TradeOnce, Match, WrappingExAmount, Place, OrderOk,
      Offers, Faces, FillFits, Held, Covered, Next, AfterFill, SideAfter, FirstProduct, Affords, Priced, Short,
      Matched, NodeOf;
    var o, m := Last(d), Large(d, 4);
    LastFaces(d, w);
    LastFill(d);
    Meets(w, o, m);
    TradesOnce(w, o, m);
    var placed := Place(w, 0, o);
    var w1 := TradeOnce(placed, 0, 6);
    FillIs(placed, 0, 6, m);
    FilledUp(o, d.lot, d.worth);
    FilledStops(w1, 0, 6);
    MatchedFilled(w, o, w1);
    OfferNext(w, o);
    FacesCrosses(w, o, m);
    ShortStored(d);
  }

  lemma {:induction false} NoCancels(calls: seq<Call>)
    requires forall c <- calls :: !c.CancelLimitOrder?
    ensures AllUntraded(calls)
  {
    hide CancelCall;
    if calls != [] {
      NoCancels(calls[..|calls| - 1]);
    }
  }

  lemma UntradedShort(d: Deal)
    requires 1 <= d.lot
    ensures AllUntraded(ShortCalls(d))
  {
    hide AllUntraded, Priced;
    NoCancels(ShortCalls(d));
  }

  function ShortCalls(d: Deal): seq<Call>
    requires 1 <= d.lot
  {
    Calls1(d) + [CallOf(Large(d, 1))] + [CallOf(Holder())] + [CallOf(Unit(3))] + [CallOf(Large(d, 4))]
      + [CallOf(Unit(5))]
  }

  lemma ShortLeads(d: Deal)
    requires Fits(d)
    ensures AllCovered(GENESIS, ShortCalls(d)) && Stage6(d, Run(GENESIS, ShortCalls(d)))
  {
    hide Coherent, AllCovered, Run, Covered, Next, Priced, Calls1, Stage1, Stage2, Stage3, Stage4, Stage5, Stage6,
      CallOf;
    RichWaits(d);
    var calls := Calls1(d);
    RunKeeps(calls);
    SaverSells(d, Run(GENESIS, calls));
    RunMore(calls, CallOf(Large(d, 1)));
    calls := calls + [CallOf(Large(d, 1))];
    RunKeeps(calls);
    HolderJoins(d, Run(GENESIS, calls));
    RunMore(calls, CallOf(Holder()));
    calls := calls + [CallOf(Holder())];
    RunKeeps(calls);
    SaverLeaves(d, Run(GENESIS, calls));
    RunMore(calls, CallOf(Unit(3)));
    calls := calls + [CallOf(Unit(3))];
    RunKeeps(calls);
    LargeJoins(d, Run(GENESIS, calls));
    RunMore(calls, CallOf(Large(d, 4)));
    calls := calls + [CallOf(Large(d, 4))];
    RunKeeps(calls);
    HolderLeaves(d, Run(GENESIS, calls));
    RunMore(calls, CallOf(Unit(5)));
  }

  /** Two accounts trade, and nobody cancels: a large ask gets almost all that it wants for one quote unit, and is
      filled while another ask keeps its level alive. Its dust stays, and another large ask makes the stored
      amount wrap. The level then stores less than its only ask offers, and the bid that buys it takes off
      more than is stored. */
  lemma StoredFallsShort(d: Deal)
    requires Fits(d)
    ensures AllCovered(GENESIS, ShortCalls(d)) && AllUntraded(ShortCalls(d))
    ensures var w := Run(GENESIS, ShortCalls(d));
            && Sound(w.ledger) && 0 in w.books && |w.books[0].asks| == 1
            && var l := w.books[0].asks[0];
               && (forall id <- l.orders :: id in w.orders)
               && NodeOf(l).sellAmount < SumSell(w.orders, l.orders)
    ensures var w := Run(GENESIS, ShortCalls(d));
            && Placeable(w, 0, Last(d)) && Covered(w, CallOf(Last(d)))
            && var placed := Place(w, 0, Last(d));
               && 0 in placed.books && 6 in placed.orders && MayTrade(placed, 0, 6)
               && !TakesStored(placed, 0, 6) && !NeverUnderflows(placed, 0, 6)
  {
    ShortLeads(d);
    UntradedShort(d);
    hide Coherent, AllCovered, AllUntraded, Run, Covered, Next, Priced, Sound, Held, ShortCalls, NodeOf, Place,
      NeverUnderflows, TakesStored, Stage6, CallOf, Placeable, MayTrade, SumSell;
    var w := Run(GENESIS, ShortCalls(d));
    RunKeeps(ShortCalls(d));
    ShortOffers(d, w);
    LastTakes(d, w);
  }

  // ---------- The largest price ----------

  /** An order at the largest price: a bid of all base units, or an ask for as many. */
  function Top(otype: OrderType): Order {
    if otype.Buy? then NewOrder(0, 0, 1, 0, U128_MAX, U128_MAX, PRICE_FACTOR, Buy)
    else NewOrder(0, 0, 1, 1, U128_MAX, PRICE_FACTOR, U128_MAX, Sell)
  }

  lemma TopExact(otype: OrderType)
    ensures ExactAmounts(otype, U128_MAX, Top(otype).sellAmount, Top(otype).buyAmount)
  {
  }

  /** It is acceptable. */
  lemma TopPlaced(w: World, otype: OrderType)
    requires Coherent(w, {}) && Stands(w, 1, U128_MAX, 0, PRICE_FACTOR, 0) && w.orders == map[]
    ensures var o := Top(otype);
            && Acceptable(w, o.owner, 0, 1, otype, U128_MAX, o.sellAmount)
            && Freeze(w.ledger, o.owner, o.SellToken(), o.sellAmount).Ok? && Placeable(w, 0, o)
            && LimitOrderCall(w, o.owner, 0, 1, otype, U128_MAX, o.sellAmount, 0) == Matched(w, 0, o)
  {
    hide Coherent, Orderly, PairsOk, EnsureCounterpartyAmountBounds, ExactAmounts, Matched, Freeze, LimitOrderCall;
    var o := Top(otype);
    TopExact(otype);
    CoherentParts(w);
    AdmissionExact(otype, U128_MAX, o.sellAmount);
    FreezeExact(w.ledger, o.owner, o.SellToken(), o.sellAmount);
    LimitOrderPlaced(w, o.owner, 0, 1, otype, U128_MAX, o.sellAmount, 0);
  }

  /** What becomes of it: a bid goes round the matching loop forever, as the item next to the head is the top
      sentinel, without orders; an ask is pushed into that sentinel, which leaves no list of any book. */
  ghost predicate Stuck(w: World, p: PairId, o: Order, items: Links.Items)
    requires p in w.books
  {
    if o.otype.Buy? then
      var neighbour := HeadNext(w.books[p]);
      && neighbour != Exchange.EndItemPrice(Buy) && PriceMatched(o.price, Buy, neighbour.value)
      && neighbour in items && items[neighbour].orders == []
    else
      forall b :: !Represents(Exchange.AppendedItems(items, w.books[p], Sell, o.price, o.id,
                                                     o.remainedSell, o.remainedBuy), b)
  }

  /** The first order of a pair, at the largest price, passes every check, and is not withstood. */
  lemma LargestPriceSticks(otype: OrderType)
    ensures var calls, o := Listing(U128_MAX, PRICE_FACTOR, 1), Top(otype);
            && AllCovered(GENESIS, calls)
            && var w := Run(GENESIS, calls);
               && Acceptable(w, o.owner, 0, 1, otype, U128_MAX, o.sellAmount)
               && LimitOrderCall(w, o.owner, 0, 1, otype, U128_MAX, o.sellAmount, 0).Ok?
               && Freeze(w.ledger, o.owner, o.SellToken(), o.sellAmount).Ok?
               && var placed := Place(w, 0, o);
                  0 in placed.books && forall items :: Represents(items, placed.books[0]) ==> Stuck(placed, 0, o, items)
  {
    hide Coherent, Poised, AllCovered, Run, Listing, Freeze, Match, Acceptable, LimitOrderCall, OrderOk, CanTrade,
      Represents, Exchange.AppendedItems;
    var calls, o := Listing(U128_MAX, PRICE_FACTOR, 1), Top(otype);
    ListingLeads(U128_MAX, PRICE_FACTOR, 1);
    RunKeeps(calls);
    var w := Run(GENESIS, calls);
    TopPlaced(w, otype);
    PlaceKeeps(w, 0, o);
    var placed := Place(w, 0, o);
    MatchUnfold(placed, 0, 0);
    assert !Crossing(placed, 0, 0) && Match(placed, 0, 0) == placed;
    forall items | Represents(items, placed.books[0]) ensures Stuck(placed, 0, o, items) {
      Exchange.NeverEnds(placed, 0, 0, items);
    }
  }

  // ---------- The only order of a level ----------

  /** An order waits alone in its level. Its owner can cancel it, which leaves no list of any book. */
  lemma LoneCancelBreaks(quotes: nat)
    requires quotes <= U128_MAX
    ensures var calls := Listing(1, quotes, 1) + [CallOf(BID)];
            && AllCovered(GENESIS, calls)
            && var w := Run(GENESIS, calls);
               && CancelCall(w, 0, 0).Ok? && 0 in w.books
               && forall items :: Represents(items, w.books[0]) ==>
                    && Some(BID.price) in items
                    && !exists b :: Represents(Withdrawn(items, BID.price, 0, BID.sellAmount, BID.buyAmount), b)
  {
    hide Coherent, AllCovered, Run, Listing, CancelCall, Represents, Withdrawn, Stands;
    var calls := Listing(1, quotes, 1) + [CallOf(BID)];
    BidLeads(quotes, 1);
    RunKeeps(calls);
    var w := Run(GENESIS, calls);
    CancelReady(w, 0, 0);
    forall items | Represents(items, w.books[0])
      ensures Some(BID.price) in items
      ensures !exists b :: Represents(Withdrawn(items, BID.price, 0, BID.sellAmount, BID.buyAmount), b)
    {
      WithdrawWellFormed(items, w.books[0], Buy, 0, 0, BID.sellAmount, BID.buyAmount);
    }
  }
}

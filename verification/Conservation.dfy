/** Conservation over whole runs: all that is held of a token is its supply for exactly as long as nobody
    has traded with himself. */
module Conservation {
  import opened Base
  import opened Orders
  import opened Ledger
  import opened Settlement
  import opened World
  import opened Matching
  import opened Engine
  import opened Operations
  import opened Transitions
  import opened LifeCycle

  /** The parties of every trade have different owners. */
  ghost predicate TradedWithOthers(w: World)
    requires PartiesKnown(w.orders, w.trades)
  {
    forall t <- w.trades :: w.orders[t.maker].owner != w.orders[t.taker].owner
  }

  /** The trades by which `w'` is ahead of `w` were all brought about by one order. */
  ghost predicate TakenBy(w: World, w': World, id: OrderId) {
    forall i :: |w.trades| <= i < |w'.trades| ==> w'.trades[i].taker == id
  }

  /** The ledger is sound exactly if everybody has traded with others. */
  ghost predicate SoundExactly(w: World) {
    && PartiesKnown(w.orders, w.trades)
    && (Sound(w.ledger) || Inflated(w.ledger))
    && (Sound(w.ledger) <==> TradedWithOthers(w))
  }

  lemma OldTrades(w: World, w': World)
    requires PartiesKnown(w.orders, w.trades) && PartiesKnown(w'.orders, w'.trades) && Evolves(w, w')
    ensures TradedWithOthers(w) <==>
            forall i :: 0 <= i < |w.trades| ==>
              w'.orders[w'.trades[i].maker].owner != w'.orders[w'.trades[i].taker].owner
  {
    forall i | 0 <= i < |w.trades|
      ensures w'.trades[i] == w.trades[i]
      ensures w'.orders[w'.trades[i].maker].owner == w.orders[w.trades[i].maker].owner
      ensures w'.orders[w'.trades[i].taker].owner == w.orders[w.trades[i].taker].owner
    {
      var t := w.trades[i];
      assert Advances(w.orders[t.maker], w'.orders[t.maker]) && Advances(w.orders[t.taker], w'.orders[t.taker]);
    }
  }

  lemma OthersStep(w: World, w': World, id: OrderId)
    requires PartiesKnown(w.orders, w.trades) && PartiesKnown(w'.orders, w'.trades) && Evolves(w, w')
    requires id in w.orders && w'.orders.Keys == w.orders.Keys && TakenBy(w, w', id)
    ensures TradedWithOthers(w') <==> TradedWithOthers(w) && AmongOthers(w, w', id)
  {
    OldTrades(w, w');
    assert Advances(w.orders[id], w'.orders[id]);
    forall i | |w.trades| <= i < |w'.trades|
      ensures w'.trades[i].maker in w.orders && w'.trades[i].taker == id
      ensures w'.orders[w'.trades[i].maker].owner == w.orders[w'.trades[i].maker].owner
    {
      assert w'.trades[i] in w'.trades;
      assert Advances(w.orders[w'.trades[i].maker], w'.orders[w'.trades[i].maker]);
    }
    assert (forall t <- w'.trades :: w'.orders[t.maker].owner != w'.orders[t.taker].owner) <==>
           (forall i :: 0 <= i < |w'.trades| ==>
              w'.orders[w'.trades[i].maker].owner != w'.orders[w'.trades[i].taker].owner);
  }

  /** A call that brings about no trade, and after which the ledger is as sound as before. */
  lemma QuietStep(w: World, w': World)
    requires SoundExactly(w) && Evolves(w, w') && w'.trades == w.trades
    requires Sound(w.ledger) ==> Sound(w'.ledger)
    requires Inflated(w.ledger) ==> Inflated(w'.ledger)
    ensures SoundExactly(w')
  {
    hide Sound, Inflated;
    if Inflated(w'.ledger) {
      InflatedUnsound(w'.ledger);
    }
    PartiesStay(w, w');
    OldTrades(w, w');
    assert (forall t <- w'.trades :: w'.orders[t.maker].owner != w'.orders[t.taker].owner) <==>
           (forall i :: 0 <= i < |w'.trades| ==>
              w'.orders[w'.trades[i].maker].owner != w'.orders[w'.trades[i].taker].owner);
  }

  lemma PartiesStay(w: World, w': World)
    requires PartiesKnown(w.orders, w.trades) && Evolves(w, w') && w'.trades == w.trades
    ensures PartiesKnown(w'.orders, w'.trades)
  {
  }

  lemma MatchStep(w: World, p: PairId, id: OrderId)
    requires p in w.books && id in w.orders && Poised(w, p, id) && SoundExactly(w)
    ensures SoundExactly(Match(w, p, id))
  {
    var w' := Match(w, p, id);
    hide Poised, Match, Sound, Inflated, Evolves, TradedWithOthers, AmongOthers, PartiesKnown;
    MatchStops(w, p, id);
    PoisedParties(w', p, id);
    MatchEvolves(w, p, id);
    LogGrows(w, p, id);
    OthersStep(w, w', id);
    if Sound(w.ledger) {
      MatchSoundExact(w, p, id);
    } else {
      StaysInflated(w, p, id);
      InflatedUnsound(w'.ledger);
    }
  }

  lemma PoisedParties(w: World, p: PairId, id: OrderId)
    requires Poised(w, p, id)
    ensures PartiesKnown(w.orders, w.trades)
  {
  }

  lemma MatchedStep(w: World, p: PairId, o: Order)
    requires Coherent(w, {}) && SoundExactly(w) && Placeable(w, p, o) && Matched(w, p, o).Ok?
    ensures SoundExactly(Matched(w, p, o).value)
  {
    hide Coherent, OrderOk, Freeze, Poised, Crossing, Match, Enqueue, Place, Sound, Inflated, Evolves, SoundExactly;
    PlaceKeeps(w, p, o);
    PlaceSound(w, p, o);
    PlaceEvolves(w, p, o);
    var placed := Place(w, p, o);
    SameTrades(w, p, o);
    QuietStep(w, placed);
    MatchStep(placed, p, o.id);
    var matched := Match(placed, p, o.id);
    EnqueueOrders(matched, p, o.id);
    EvolvesSelf(matched);
    SameOrders(matched, matched, Matched(w, p, o).value);
    QuietStep(matched, Matched(w, p, o).value);
  }

  lemma SameTrades(w: World, p: PairId, o: Order)
    requires Placeable(w, p, o)
    ensures Place(w, p, o).trades == w.trades
  {
  }

  lemma LedgerStep(w: World, s: Step)
    requires Orderly(w.ledger) && SoundExactly(w) && !ToItself(w.ledger, s) && Proper(w.ledger, s)
    ensures SoundExactly(w.(ledger := Taken(w.ledger, s)))
  {
    hide Orderly, Sound, Inflated, Taken, ToItself, Proper, SoundExactly, Evolves;
    StepKeeps(w.ledger, s);
    if Inflated(w.ledger) {
      StepInflated(w.ledger, s);
    }
    EvolvesSelf(w);
    SameOrders(w, w, w.(ledger := Taken(w.ledger, s)));
    QuietStep(w, w.(ledger := Taken(w.ledger, s)));
  }

  lemma CancelStep(w: World, sender: AccountId, id: OrderId)
    requires Coherent(w, {}) && SoundExactly(w)
    requires Covered(w, CancelLimitOrder(sender, id)) && CancelCall(w, sender, id).Ok?
    ensures SoundExactly(CancelCall(w, sender, id).value)
  {
    hide Coherent, SoundExactly, Covered, CancelCall, Orderly, Sound, Inflated;
    CancelUnfinished(w, sender, id);
    CancelCallKeeps(w, sender, id);
    var w' := CancelCall(w, sender, id).value;
    CoherentParts(w);
    CoherentParts(w');
    SameMoney(w.ledger, w'.ledger);
    CancelEvolves(w, w', id);
    QuietStep(w, w');
  }

  lemma NextStep(w: World, c: Call)
    requires Coherent(w, {}) && Covered(w, c) && SoundExactly(w)
    ensures SoundExactly(Next(w, c))
  {
    hide Coherent, SoundExactly, SharesLevel, LimitOrderCall, CancelCall, Matched, Placeable, Admitted, OrderOf;
    hide Orderly, Transfer, Issue;
    CoherentParts(w);
    if Perform(w, c).Ok? {
      match c
      case IssueToken(sender, token, totalSupply) => LedgerStep(w, Issuing(sender, token, totalSupply));
      case TransferToken(sender, to, token, amount) => LedgerStep(w, Transferring(sender, to, token, amount));
      case CreateTradePair(_, _, _, _) => PairStep(w, Next(w, c));
      case CreateLimitOrder(sender, base, quote, otype, price, sellAmount, order) =>
        LimitOrderPlaced(w, sender, base, quote, otype, price, sellAmount, order);
        MatchedStep(w, w.pairOf[(base, quote)], OrderOf(sender, base, quote, otype, price, sellAmount, order));
      case CancelLimitOrder(sender, order) => CancelStep(w, sender, order);
    }
  }

  lemma PairStep(w: World, w': World)
    requires SoundExactly(w) && w'.ledger == w.ledger && w'.orders == w.orders && w'.trades == w.trades
    ensures SoundExactly(w')
  {
    hide Sound, Inflated;
  }

  /** In every state that covered calls lead to, all that is held of every token is its supply if and only
      if no trade so far was one of an account with itself. */
  lemma {:induction false} RunSoundExact(calls: seq<Call>)
    requires AllCovered(GENESIS, calls)
    ensures SoundExactly(Run(GENESIS, calls))
  {
    hide Coherent, Covered, Next;
    if calls == [] {
      GenesisOk();
    } else {
      hide SoundExactly;
      var before := calls[..|calls| - 1];
      RunKeeps(before);
      RunSoundExact(before);
      NextStep(Run(GENESIS, before), calls[|calls| - 1]);
    }
  }
}

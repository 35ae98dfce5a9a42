/** How every call ends: when it goes through, with which error it fails otherwise, and what it leaves. */
module Outcomes {
  import opened Base
  import opened Sums
  import opened Orders
  import opened FillMath
  import opened Ledger
  import opened Books
  import opened Settlement
  import opened World
  import opened Matching
  import opened TradeInvariants
  import opened Engine
  import opened Operations
  import opened Transitions
  import opened TradeRules
  import opened TimePriority
  import opened Guarantees

  // ---------- Tokens ----------

  /** Who has issued a token, and how much of it. */
  datatype Issuance = Issuance(issuer: AccountId, amount: nat)

  /** By the calls alone. */
  function Issued(calls: seq<Call>, token: TokenId): Option<Issuance> {
    if calls == [] then None else
      var c := calls[|calls| - 1];
      if c.IssueToken? && c.token == token then Some(Issuance(c.sender, c.totalSupply))
      else Issued(calls[..|calls| - 1], token)
  }

  /** What the ledger says about a token. */
  ghost predicate TokenIs(l: Ledger, token: TokenId, issued: Option<Issuance>) {
    && (token in l.supply <==> issued.Some?) && (token in l.owners <==> issued.Some?)
    && (issued.Some? ==> token in l.supply && token in l.owners &&
                         l.supply[token] == issued.value.amount && l.owners[token] == issued.value.issuer)
  }

  lemma {:induction false} MatchTokens(w: World, p: PairId, id: OrderId)
    requires p in w.books && id in w.orders && Poised(w, p, id)
    ensures Match(w, p, id).ledger.supply == w.ledger.supply && Match(w, p, id).ledger.owners == w.ledger.owners
    decreases !w.orders[id].status.Filled?, |Priority(Opposite(w, p, id))|
  {
    hide Poised, TradeOnce, Crossing, CanTrade, Priority, Opposite, SameTerms;
    MatchUnfold(w, p, id);
    if MayTrade(w, p, id) {
      TradeProgress(w, p, id);
      TradeTokens(w, p, id);
      MatchTokens(TradeOnce(w, p, id), p, id);
    }
  }

  lemma TradeTokens(w: World, p: PairId, id: OrderId)
    requires p in w.books && id in w.orders && Poised(w, p, id) && MayTrade(w, p, id)
    ensures CanTrade(w, p, id)
    ensures var l := TradeOnce(w, p, id).ledger; l.supply == w.ledger.supply && l.owners == w.ledger.owners
  {
    hide Poised, Crossing, Settle, Tradable, LevelsAfter, Moved, FillFits, AfterFill, RestOf;
    NextTradable(w, p, id);
    var taker, maker := w.orders[id], w.orders[Front(w, p, id)];
    var give, have, s := taker.SellToken(), maker.SellToken(), SettledFront(w, p, id);
    var g, h := GiveOf(s.fill, taker.otype), HaveOf(s.fill, taker.otype);
    SettleMoved(w.ledger, give, have, taker, maker);
    MoveChanges(w.ledger, taker.owner, give, g, RestOf(taker, g, h), maker.owner, have, h, RestOf(maker, h, g));
  }

  lemma MatchedTokens(w: World, p: PairId, o: Order)
    requires Coherent(w, {}) && Placeable(w, p, o) && Matched(w, p, o).Ok?
    ensures var l := Matched(w, p, o).value.ledger; l.supply == w.ledger.supply && l.owners == w.ledger.owners
  {
    hide Coherent, Poised, Crossing, Match, OrderOk, Enqueue, Orderly;
    PlaceKeeps(w, p, o);
    CoherentParts(w);
    FreezeEffect(w.ledger, o.owner, o.SellToken(), o.sellAmount);
    MatchTokens(Place(w, p, o), p, o.id);
    EnqueueOrders(Match(Place(w, p, o), p, o.id), p, o.id);
  }

  lemma NextTokens(w: World, c: Call)
    requires Coherent(w, {}) && Covered(w, c) && !c.IssueToken?
    ensures Next(w, c).ledger.supply == w.ledger.supply && Next(w, c).ledger.owners == w.ledger.owners
  {
    hide Coherent, LimitOrderCall, CancelCall, SharesLevel, Transfer, Matched, Placeable, Admitted, OrderOf, Orderly;
    if Perform(w, c).Ok? {
      match c
      case TransferToken(sender, to, token, amount) => TransferChanges(w.ledger, sender, to, token, amount);
      case CreateTradePair(_, _, _, _) =>
      case CreateLimitOrder(sender, base, quote, otype, price, sellAmount, order) =>
        CoherentParts(w);
        LimitOrderPlaced(w, sender, base, quote, otype, price, sellAmount, order);
        MatchedTokens(w, w.pairOf[(base, quote)], OrderOf(sender, base, quote, otype, price, sellAmount, order));
      case CancelLimitOrder(sender, order) => CancelTokens(w, sender, order);
    }
  }

  lemma CancelTokens(w: World, sender: AccountId, id: OrderId)
    requires CancelCall(w, sender, id).Ok?
    ensures var l := CancelCall(w, sender, id).value.ledger; l.supply == w.ledger.supply && l.owners == w.ledger.owners
  {
    hide LevelIndex, QueuedAt, CanceledLevel, Unfreeze;
    var o := w.orders[id];
    UnfreezeChanges(w.ledger, o.owner, o.SellToken(), o.remainedSell);
  }

  /** Over all runs the ledger knows exactly the tokens that were issued, each with the amount that was, as the
      property of the account that did. */
  lemma {:induction false} TokensIssued(calls: seq<Call>, token: TokenId)
    requires AllCovered(GENESIS, calls)
    ensures TokenIs(Run(GENESIS, calls).ledger, token, Issued(calls, token))
  {
    hide Coherent, Covered, Next;
    if calls != [] {
      var before, c := calls[..|calls| - 1], calls[|calls| - 1];
      RunKeeps(before);
      TokensIssued(before, token);
      if c.IssueToken? {
        IssueIs(Run(GENESIS, before), c.sender, c.token, c.totalSupply, token);
      } else {
        NextTokens(Run(GENESIS, before), c);
      }
    }
  }

  lemma IssueIs(w: World, sender: AccountId, token: TokenId, amount: nat, t: TokenId)
    ensures var l := Next(w, IssueToken(sender, token, amount)).ledger;
            && (t == token ==> TokenIs(l, t, Some(Issuance(sender, amount))))
            && (forall i :: t != token && TokenIs(w.ledger, t, i) ==> TokenIs(l, t, i))
  {
  }

  /** Issuing always goes through, and its issuer holds all of it, free. */
  lemma IssueOutcome(w: World, sender: AccountId, token: TokenId, amount: nat)
    ensures var r := Perform(w, IssueToken(sender, token, amount));
            && r.Ok? && r.value == w.(ledger := r.value.ledger)
            && TokenIs(r.value.ledger, token, Some(Issuance(sender, amount)))
            && Get(r.value.ledger.balance, (sender, token)) == Get(r.value.ledger.free, (sender, token)) == amount
  {
  }

  // ---------- Transfers and funds ----------

  /** The check of the free balance passes if and only if token and account are known and the funds suffice. */
  lemma FreeBalanceExact(l: Ledger, owner: AccountId, token: TokenId, amount: nat)
    ensures var r := EnsureFreeBalance(l, owner, token, amount);
            && (r == Pass <==> token in l.supply && (owner, token) in l.free && amount <= l.free[(owner, token)])
            && (r == Fail(NoMatchingToken) <==> token !in l.supply)
            && (r == Fail(SenderHaveNoToken) <==> token in l.supply && (owner, token) !in l.free)
            && (r == Fail(BalanceNotEnough) <==>
                  token in l.supply && (owner, token) in l.free && l.free[(owner, token)] < amount)
  {
  }

  /** A transfer call goes through if and only if its parties differ, the sender knows the token and has the funds
      free, and the receiver's balance stays a `u128`; each other case has its error. */
  lemma TransferOutcome(w: World, from: AccountId, to: AccountId, token: TokenId, amount: nat)
    requires Orderly(w.ledger)
    ensures var r, l := Perform(w, TransferToken(from, to, token, amount)), w.ledger;
            var known := token in l.supply && (from, token) in l.free;
            && (r.Ok? <==> from != to && known && amount <= l.free[(from, token)]
                           && Get(l.balance, (to, token)) + amount <= U128_MAX)
            && (r == Err(MustNotTransferYourself) <==> from == to)
            && (r == Err(NoMatchingToken) <==> from != to && token !in l.supply)
            && (r == Err(SenderHaveNoToken) <==> from != to && token in l.supply && (from, token) !in l.free)
            && (r == Err(BalanceNotEnough) <==> from != to && known && l.free[(from, token)] < amount)
            && (r.Ok? ==> r.value == w.(ledger := r.value.ledger))
  {
    hide Orderly;
    if from != to && Known(w.ledger, from, token).Pass? {
      if amount <= Get(w.ledger.free, (from, token)) {
        TransferExact(w.ledger, from, to, token, amount);
      }
    }
  }

  // ---------- Pairs ----------

  /** The pair of two tokens, by the calls that have listed one. */
  ghost function PairListed(calls: seq<Call>, base: TokenId, quote: TokenId): Option<PairId> {
    if calls == [] then None else
      var before, c := calls[..|calls| - 1], calls[|calls| - 1];
      if c.CreateTradePair? && c.base == base && c.quote == quote && Perform(Run(GENESIS, before), c).Ok? then
        Some(c.pair)
      else PairListed(before, base, quote)
  }

  /** Over all runs exactly those pairs are known that were listed. */
  lemma {:induction false} PairsListed(calls: seq<Call>, base: TokenId, quote: TokenId)
    ensures var pairOf := Run(GENESIS, calls).pairOf;
            && ((base, quote) in pairOf <==> PairListed(calls, base, quote).Some?)
            && ((base, quote) in pairOf ==> Some(pairOf[(base, quote)]) == PairListed(calls, base, quote))
  {
    if calls != [] {
      var before, c := calls[..|calls| - 1], calls[|calls| - 1];
      PairsListed(before, base, quote);
      NextPairs(Run(GENESIS, before), c);
    }
  }

  ghost predicate IssuedBy(calls: seq<Call>, token: TokenId, account: AccountId) {
    Issued(calls, token).Some? && Issued(calls, token).value.issuer == account
  }

  /** A pair is accepted if and only if its tokens differ, both have been issued, one of them by the sender, and
      neither direction is listed; each other case has its error. Then exactly this pair is listed besides. */
  lemma TradePairOutcome(calls: seq<Call>, sender: AccountId, base: TokenId, quote: TokenId, pair: PairId)
    requires AllCovered(GENESIS, calls)
    ensures var w, r := Run(GENESIS, calls), Perform(Run(GENESIS, calls), CreateTradePair(sender, base, quote, pair));
            var issued := Issued(calls, base).Some? && Issued(calls, quote).Some?;
            var entitled := IssuedBy(calls, base, sender) || IssuedBy(calls, quote, sender);
            var listed := PairListed(calls, base, quote).Some? || PairListed(calls, quote, base).Some?;
            && (r.Ok? <==> base != quote && issued && entitled && !listed)
            && (r == Err(BaseEqualQuote) <==> base == quote)
            && (r == Err(TokenOwnerNotFound) <==> base != quote && !issued)
            && (r == Err(SenderNotEqualToBaseOrQuoteOwner) <==> base != quote && issued && !entitled)
            && (r == Err(TradePairExisted) <==> base != quote && issued && entitled && listed)
            && (r.Ok? ==> r.value == w.(pairs := w.pairs[pair := Pair(base, quote)],
                                        pairOf := w.pairOf[(base, quote) := pair]))
  {
    hide AllCovered, Run, Issued, Listed;
    TokensIssued(calls, base);
    TokensIssued(calls, quote);
    PairsListed(calls, base, quote);
    PairsListed(calls, quote, base);
  }

  // ---------- Orders ----------

  /** The amount that an order wants for what it offers, if there is one. */
  ghost predicate Converts(otype: OrderType, price: Price, amount: nat) {
    exists c: nat :: ExactAmounts(otype, price, amount, c)
  }

  lemma ConversionOutcome(otype: OrderType, price: Price, amount: nat)
    requires 0 < price && 0 < amount
    ensures var r := EnsureCounterpartyAmountBounds(otype, price, amount);
            && (r == Err(BoundsCheckFailedAmount2) <==> !Converts(otype, price, amount))
            && (r.Err? && r != Err(BoundsCheckFailedAmount2) ==> r == Err(BoundsCheckFailedAmountCounter))
  {
    var (m, d) := if otype.Buy? then (PRICE_FACTOR, price) else (price, PRICE_FACTOR);
    RoundTripExact(amount, m, d);
    if c: nat :| ExactAmounts(otype, price, amount, c) {
      DivUnique(amount * m, d, c);
    }
    if EnsureCounterpartyAmountBounds(otype, price, amount) != Err(BoundsCheckFailedAmount2) {
      assert ExactAmounts(otype, price, amount, FloorDiv(amount * m, d));
    }
  }

  /** A limit order that is not acceptable fails with the error of the first condition that it does not meet. */
  lemma LimitOrderRefused(w: World, sender: AccountId, base: TokenId, quote: TokenId, otype: OrderType,
                          price: Price, sellAmount: nat, id: OrderId)
    requires Coherent(w, {}) && !Acceptable(w, sender, base, quote, otype, price, sellAmount)
    ensures var r, l := LimitOrderCall(w, sender, base, quote, otype, price, sellAmount, id), w.ledger;
            var h := (sender, if otype.Buy? then base else quote);
            r == Err(
              if !(0 < price <= U128_MAX) then BoundsCheckFailedPrice
              else if !(0 < sellAmount <= U128_MAX) then BoundsCheckFailedAmount
              else if !Converts(otype, price, sellAmount) then BoundsCheckFailedAmount2
              else if !(exists c :: 1 <= c <= U128_MAX && ExactAmounts(otype, price, sellAmount, c)) then
                BoundsCheckFailedAmountCounter
              else if (base, quote) !in w.pairOf then NoMatchingTradePair
              else if h !in l.free then SenderHaveNoToken
              else BalanceNotEnough)
  {
    hide Coherent, Orderly, Freeze, EnsureCounterpartyAmountBounds, ExactAmounts, Matched;
    CoherentParts(w);
    if 0 < price <= U128_MAX && 0 < sellAmount <= U128_MAX {
      ConversionOutcome(otype, price, sellAmount);
      AdmissionExact(otype, price, sellAmount);
      if (base, quote) in w.pairOf {
        ListedTokens(w, base, quote);
      }
    }
  }

  lemma ListedTokens(w: World, base: TokenId, quote: TokenId)
    requires PairsOk(w) && (base, quote) in w.pairOf
    ensures base in w.ledger.supply && quote in w.ledger.supply
  {
    PairKnown(w, w.pairOf[(base, quote)]);
  }

  /** A limit order that is carried out is stored on the terms of the call, wanting exactly what its offer is worth. */
  lemma LimitOrderStored(w: World, sender: AccountId, base: TokenId, quote: TokenId, otype: OrderType,
                         price: Price, sellAmount: nat, id: OrderId)
    requires Coherent(w, {}) && Covered(w, CreateLimitOrder(sender, base, quote, otype, price, sellAmount, id))
    requires LimitOrderCall(w, sender, base, quote, otype, price, sellAmount, id).Ok?
    ensures var w' := LimitOrderCall(w, sender, base, quote, otype, price, sellAmount, id).value;
            && w'.orders.Keys == w.orders.Keys + {id} && id !in w.orders
            && var o := w'.orders[id];
               && o.id == id && o.owner == sender && o.base == base && o.quote == quote
               && o.otype == otype && o.price == price && o.sellAmount == sellAmount
               && ExactAmounts(otype, price, sellAmount, o.buyAmount) && !o.status.Canceled?
  {
    hide Coherent, LimitOrderCall, Matched, Placeable, Admitted, ExactAmounts, EnsureCounterpartyAmountBounds;
    CoherentParts(w);
    LimitOrderPlaced(w, sender, base, quote, otype, price, sellAmount, id);
    AdmissionExact(otype, price, sellAmount);
    var o := OrderOf(sender, base, quote, otype, price, sellAmount, id);
    MatchedKeys(w, w.pairOf[(base, quote)], o);
    MatchedTerms(w, w.pairOf[(base, quote)], o);
  }

  lemma MatchedTerms(w: World, p: PairId, o: Order)
    requires Coherent(w, {}) && Placeable(w, p, o) && Matched(w, p, o).Ok?
    ensures var w' := Matched(w, p, o).value;
            o.id in w'.orders && SameTerms(o, w'.orders[o.id]) && !w'.orders[o.id].status.Canceled?
  {
    hide Coherent, Poised, Crossing, Match, OrderOk, Freeze, Enqueue, Place, SameTerms;
    PlaceKeeps(w, p, o);
    PlacedPrice(w, p, o);
    LogGrows(Place(w, p, o), p, o.id);
    MatchCancelsNone(Place(w, p, o), p, o.id);
    EnqueueOrders(Match(Place(w, p, o), p, o.id), p, o.id);
    NotCanceledYet(w, p, o);
  }

  lemma NotCanceledYet(w: World, p: PairId, o: Order)
    requires Placeable(w, p, o)
    ensures o.id in Place(w, p, o).orders && !Place(w, p, o).orders[o.id].status.Canceled?
  {
    hide OrderOk, Freeze;
  }

  /** A cancellation goes through if and only if it is its owner's, of an unfinished order; each other case has its
      error. */
  lemma CancelOutcome(w: World, sender: AccountId, id: OrderId)
    requires Coherent(w, {})
    ensures var r := CancelCall(w, sender, id);
            && (r.Ok? <==> id in w.orders && w.orders[id].owner == sender && !w.orders[id].IsFinished())
            && (r == Err(NoMatchingOrder) <==> id !in w.orders)
            && (r == Err(CanOnlyCancelOwnOrder) <==> id in w.orders && w.orders[id].owner != sender)
            && (r == Err(CanOnlyCancelNotFinishedOrder) <==>
                  id in w.orders && w.orders[id].owner == sender && w.orders[id].IsFinished())
  {
    hide Coherent, InList, Unfreeze, Cancel;
    if id in w.orders && w.orders[id].owner == sender && !w.orders[id].IsFinished() {
      CancelReady(w, sender, id);
    }
  }

  /** It cancels this order, unfreezes what it still offers, and moves no money between accounts. */
  lemma CancelLeaves(w: World, o: Order, w': World)
    requires o.id in w.orders && w.orders[o.id] == o && CancelCall(w, o.owner, o.id) == Ok(w')
    ensures var id, h := o.id, (o.owner, o.SellToken());
            && w'.orders == w.orders[id := o.(status := Canceled)] && w'.trades == w.trades
            && w'.ledger.balance == w.ledger.balance
            && w'.ledger.frozen == w.ledger.frozen[h := Get(w.ledger.frozen, h) - o.remainedSell]
  {
    hide Unfreeze, CancelCall;
    CancelIs(w, o.owner, o.id, w');
    UnfreezeChanges(w.ledger, o.owner, o.SellToken(), o.remainedSell);
  }

  lemma CancelIs(w: World, sender: AccountId, id: OrderId, w': World)
    requires CancelCall(w, sender, id) == Ok(w')
    ensures id in w.orders
    ensures var o := w.orders[id];
            && Unfreeze(w.ledger, o.owner, o.SellToken(), o.remainedSell) == Ok(w'.ledger)
            && w'.orders == w.orders[o.id := o.(status := Canceled)] && w'.trades == w.trades
  {
    hide LevelIndex, QueuedAt, CanceledLevel, Unfreeze;
  }
}

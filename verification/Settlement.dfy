/** One trade between a resting order (the maker) and an incoming one (the taker): what it does to
    both orders and to the ledger. */
module Settlement {
  import opened Base
  import opened Sums
  import opened Orders
  import opened FillMath
  import opened Ledger

  /** A settled trade; what was unfrozen beyond the two shares has come back to the orders' owners. */
  datatype Settled = Settled(ledger: Ledger, taker: Order, maker: Order, fill: Fill, takerBack: nat, makerBack: nat)

  /** An order's share of a fill: what it gives and what it gets. */
  function GiveOf(f: Fill, otype: OrderType): nat {
    if otype.Buy? then f.base else f.quote
  }

  function HaveOf(f: Fill, otype: OrderType): nat {
    if otype.Buy? then f.quote else f.base
  }

  /** The four movements of a trade: both shares are unfrozen and change hands. */
  function Exchanged(l: Ledger, a: AccountId, give: TokenId, g: nat, b: AccountId, have: TokenId, h: nat):
    Result<Ledger>
  {
    var l1 :- Unfreeze(l, a, give, g);
    var l2 :- Unfreeze(l1, b, have, h);
    var l3 :- Transfer(l2, a, b, give, g);
    Transfer(l3, b, a, have, h)
  }

  function Started(o: Order): Order {
    if o.remainedSell == o.sellAmount then o.(status := PartialFilled) else o
  }

  function Deducted(o: Order, give: nat, have: nat): Result<Order> {
    if o.remainedSell < give || o.remainedBuy < have then Err(OrderMatchSubstractError)
    else Ok(o.(remainedSell := o.remainedSell - give, remainedBuy := o.remainedBuy - have))
  }

  function Refunded(l: Ledger, owner: AccountId, token: TokenId, rest: nat): Result<Ledger> {
    if rest != 0 then Unfreeze(l, owner, token, rest) else Ok(l)
  }

  /** An order that has got all it wants is filled, and what it did not need is unfrozen. */
  function Closed(l: Ledger, o: Order, token: TokenId): Result<(Ledger, Order, nat)> {
    if o.remainedBuy != 0 then Ok((l, o, 0)) else
      var refunded :- Refunded(l, o.owner, token, o.remainedSell);
      var filled := o.(status := Filled, remainedSell := 0);
      if filled.IsFinished() then Ok((refunded, filled, o.remainedSell)) else Err(OrderMatchOrderIsNotFinished)
  }

  /** The steps of one trade, each of which may fail. */
  function Settle(l: Ledger, give: TokenId, have: TokenId, taker: Order, maker: Order): Result<Settled>
    requires 0 < maker.price
  {
    var fill :- CalculateExAmount(maker, taker);
    var giveQty, haveQty := GiveOf(fill, taker.otype), HaveOf(fill, taker.otype);
    var l4 :- Exchanged(l, taker.owner, give, giveQty, maker.owner, have, haveQty);
    var taker1 :- Deducted(Started(taker), giveQty, haveQty);
    var maker1 :- Deducted(Started(maker), haveQty, giveQty);
    var (l5, taker2, takerBack) :- Closed(l4, taker1, give);
    var (l6, maker2, makerBack) :- Closed(l5, maker1, have);
    Ok(Settled(l6, taker2, maker2, fill, takerBack, makerBack))
  }

  // ---------- Orders ----------

  /** What holds of every stored order at every moment. */
  ghost predicate OrderOk(o: Order) {
    && 0 < o.price <= U128_MAX
    && 0 < o.sellAmount <= U128_MAX && 0 < o.buyAmount <= U128_MAX
    && ExactAmounts(o.otype, o.price, o.sellAmount, o.buyAmount)
    && o.remainedSell <= o.sellAmount && o.remainedBuy <= o.buyAmount
    && (if o.status.Filled? then o.remainedSell == 0 && o.remainedBuy == 0
        else 0 < o.remainedSell && 0 < o.remainedBuy && Slack(o.otype, o.price, o.remainedSell, o.remainedBuy))
    && (o.status.Created? ==> o.remainedSell == o.sellAmount && o.remainedBuy == o.buyAmount)
    && (o.status.PartialFilled? ==> o.remainedSell < o.sellAmount && o.remainedBuy < o.buyAmount)
  }

  /** An order after it gave `give` and got `have`. */
  function AfterFill(o: Order, give: nat, have: nat): Order
    requires give <= o.remainedSell && have <= o.remainedBuy
  {
    if have == o.remainedBuy then o.(remainedSell := 0, remainedBuy := 0, status := Filled)
    else o.(remainedSell := o.remainedSell - give, remainedBuy := o.remainedBuy - have, status := PartialFilled)
  }

  // ---------- The whole trade ----------

  /** Two unfinished orders that a trade at the maker's price suits. */
  ghost predicate Tradable(taker: Order, maker: Order) {
    && OrderOk(taker) && OrderOk(maker)
    && !taker.IsFinished() && !maker.IsFinished()
    && maker.otype == taker.otype.Not()
    && PriceMatched(taker.price, taker.otype, maker.price)
  }

  function BuyerOf(taker: Order, maker: Order): Order {
    if taker.otype.Buy? then taker else maker
  }

  /** A fill of two orders: positive, covered by both remainders, filling at least one order. */
  ghost predicate FillFits(f: Fill, taker: Order, maker: Order) {
    && 0 < GiveOf(f, taker.otype) <= taker.remainedSell && 0 < HaveOf(f, taker.otype) <= taker.remainedBuy
    && 0 < GiveOf(f, maker.otype) <= maker.remainedSell && 0 < HaveOf(f, maker.otype) <= maker.remainedBuy
    && GiveOf(f, maker.otype) == HaveOf(f, taker.otype) && HaveOf(f, maker.otype) == GiveOf(f, taker.otype)
    && OrderOk(AfterFill(taker, GiveOf(f, taker.otype), HaveOf(f, taker.otype)))
    && OrderOk(AfterFill(maker, GiveOf(f, maker.otype), HaveOf(f, maker.otype)))
    && (HaveOf(f, taker.otype) == taker.remainedBuy || HaveOf(f, maker.otype) == maker.remainedBuy)
  }

  lemma SlackPositive(otype: OrderType, price: Price, sell: nat, buy: nat)
    requires 0 < price && 0 < buy && Slack(otype, price, sell, buy)
    ensures 0 < sell
  {
  }

  lemma AfterFillOk(o: Order, give: nat, have: nat)
    requires OrderOk(o) && !o.IsFinished()
    requires 0 < give <= o.remainedSell && 0 < have <= o.remainedBuy
    requires Slack(o.otype, o.price, o.remainedSell - give, o.remainedBuy - have)
    ensures OrderOk(AfterFill(o, give, have))
  {
    hide ExactAmounts, Slack;
    if have < o.remainedBuy {
      SlackPositive(o.otype, o.price, o.remainedSell - give, o.remainedBuy - have);
    }
  }

  /** The fill of two orders is at the resting one's price. */
  ghost predicate FillAtPrice(f: Fill, taker: Order, maker: Order) {
    var (buyer, seller) := if taker.otype.Buy? then (taker, maker) else (maker, taker);
    AtPrice(f, buyer.remainedSell, buyer.remainedBuy, seller.remainedBuy, maker.price)
  }

  /** The first product that the fill of two orders computes. */
  function FirstProduct(taker: Order, maker: Order): nat {
    var (buyer, seller) := if taker.otype.Buy? then (taker, maker) else (maker, taker);
    LeadingProduct(buyer.remainedSell, buyer.remainedBuy, seller.remainedBuy, maker.price)
  }

  /** The fill of two tradable orders is computed without overflow exactly when its first product
      fits, and then it suits both. */
  lemma TradeFill(taker: Order, maker: Order)
    requires Tradable(taker, maker)
    ensures var r := CalculateExAmount(maker, taker);
            && (r.Ok? <==> FirstProduct(taker, maker) <= U128_MAX)
            && (r.Ok? ==> FillFits(r.value, taker, maker) && FillAtPrice(r.value, taker, maker))
  {
    hide FillAmounts, LeadingProduct, Slack, ExactAmounts, AfterFill, AtPrice;
    var (buyer, seller) := if taker.otype.Buy? then (taker, maker) else (maker, taker);
    FillSafe(buyer.remainedSell, buyer.remainedBuy, buyer.price,
             seller.remainedSell, seller.remainedBuy, seller.price, maker.price);
    var r := CalculateExAmount(maker, taker);
    if r.Ok? {
      AfterFillOk(taker, GiveOf(r.value, taker.otype), HaveOf(r.value, taker.otype));
      AfterFillOk(maker, GiveOf(r.value, maker.otype), HaveOf(r.value, maker.otype));
    }
  }

  lemma ClosedIs(l: Ledger, o: Order, token: TokenId)
    ensures var rest := if o.remainedBuy == 0 then o.remainedSell else 0;
            var r := Refunded(l, o.owner, token, rest);
            Closed(l, o, token) ==
            if r.Err? then Err(r.error)
            else Ok((r.value, if o.remainedBuy == 0 then o.(status := Filled, remainedSell := 0) else o, rest))
  {
  }

  /** All the money movements of a trade: the shares `g` and `h` change hands, and what the orders do
      not need any more, `ra` and `rb`, is unfrozen. */
  function Moved(l: Ledger, a: AccountId, give: TokenId, g: nat, ra: nat, b: AccountId, have: TokenId, h: nat, rb: nat):
    Result<Ledger>
  {
    var l4 :- Exchanged(l, a, give, g, b, have, h);
    var l5 :- Refunded(l4, a, give, ra);
    Refunded(l5, b, have, rb)
  }

  /** Everything a trade needs: sound books, parties that differ, and frozen funds behind both orders. */
  ghost predicate Settleable(l: Ledger, give: TokenId, have: TokenId, taker: Order, maker: Order) {
    && Sound(l) && Tradable(taker, maker)
    && taker.owner != maker.owner && give != have
    && Funded(l, taker.owner, give, taker.remainedSell)
    && Funded(l, maker.owner, have, maker.remainedSell)
  }

  lemma DeductedIs(o: Order, give: nat, have: nat)
    requires OrderOk(o) && !o.IsFinished()
    requires 0 < give <= o.remainedSell && 0 < have <= o.remainedBuy
    ensures Deducted(Started(o), give, have).Ok?
    ensures var o1 := Deducted(Started(o), give, have).value;
            && o1.owner == o.owner && o1.remainedSell == o.remainedSell - give && o1.remainedBuy == o.remainedBuy - have
            && (if o1.remainedBuy == 0 then o1.(status := Filled, remainedSell := 0) else o1)
               == AfterFill(o, give, have)
            && AfterFill(o, give, have).remainedSell == o.remainedSell - give - RestOf(o, give, have)
  {
  }

  // ---------- What a trade that goes through does, whatever the state it starts from ----------

  lemma UnfreezeChanges(l: Ledger, owner: AccountId, token: TokenId, amount: nat)
    requires Unfreeze(l, owner, token, amount).Ok?
    ensures var l' := Unfreeze(l, owner, token, amount).value;
            && l'.supply == l.supply && l'.owners == l.owners && l'.balance == l.balance
            && l'.free.Keys == l.free.Keys && amount <= Get(l.frozen, (owner, token))
            && l'.frozen == l.frozen[(owner, token) := Get(l.frozen, (owner, token)) - amount]
            && (Orderly(l) ==> Orderly(l'))
  {
    hide Orderly;
    if Orderly(l) {
      UnfreezeOrderly(l, owner, token, amount);
    }
  }

  lemma TransferChanges(l: Ledger, from: AccountId, to: AccountId, token: TokenId, amount: nat)
    requires Transfer(l, from, to, token, amount).Ok?
    ensures var l' := Transfer(l, from, to, token, amount).value;
            && l'.supply == l.supply && l'.owners == l.owners && l'.frozen == l.frozen
            && l.free.Keys <= l'.free.Keys
            && (Orderly(l) ==> Orderly(l'))
  {
    hide Orderly;
    if Orderly(l) {
      TransferOrderly(l, from, to, token, amount);
    }
  }

  lemma ExchangeChanges(l: Ledger, a: AccountId, give: TokenId, g: nat, b: AccountId, have: TokenId, h: nat)
    requires Exchanged(l, a, give, g, b, have, h).Ok? && give != have
    ensures var l' := Exchanged(l, a, give, g, b, have, h).value;
            && l'.supply == l.supply && l'.owners == l.owners && l.free.Keys <= l'.free.Keys
            && g <= Get(l.frozen, (a, give)) && h <= Get(l.frozen, (b, have))
            && l'.frozen == l.frozen[(a, give) := Get(l.frozen, (a, give)) - g]
                                    [(b, have) := Get(l.frozen, (b, have)) - h]
            && (Orderly(l) ==> Orderly(l'))
  {
    hide Orderly, Unfreeze, Transfer;
    UnfreezeChanges(l, a, give, g);
    var l1 := Unfreeze(l, a, give, g).value;
    UnfreezeChanges(l1, b, have, h);
    var l2 := Unfreeze(l1, b, have, h).value;
    TransferChanges(l2, a, b, give, g);
    TransferChanges(Transfer(l2, a, b, give, g).value, b, a, have, h);
  }

  lemma RefundChanges(l: Ledger, owner: AccountId, token: TokenId, rest: nat)
    requires Refunded(l, owner, token, rest).Ok?
    ensures var l' := Refunded(l, owner, token, rest).value;
            && l'.supply == l.supply && l'.owners == l.owners && l'.balance == l.balance
            && l'.free.Keys == l.free.Keys
            && (forall k: Holding ::
                  Get(l'.frozen, k) == Get(l.frozen, k) - if k == (owner, token) then rest else 0)
            && (Orderly(l) ==> Orderly(l'))
  {
    hide Orderly, Unfreeze;
    if rest != 0 {
      UnfreezeChanges(l, owner, token, rest);
    }
  }

  lemma MoveChanges(l: Ledger, a: AccountId, give: TokenId, g: nat, ra: nat,
                    b: AccountId, have: TokenId, h: nat, rb: nat)
    requires Moved(l, a, give, g, ra, b, have, h, rb).Ok? && give != have
    ensures var l' := Moved(l, a, give, g, ra, b, have, h, rb).value;
            && l'.supply == l.supply && l'.owners == l.owners && l.free.Keys <= l'.free.Keys
            && (forall k: Holding :: Get(l'.frozen, k) == Get(l.frozen, k)
                 - (if k == (a, give) then g + ra else 0) - (if k == (b, have) then h + rb else 0))
            && l'.balance == Exchanged(l, a, give, g, b, have, h).value.balance
            && (Orderly(l) ==> Orderly(l'))
  {
    hide Orderly, Exchanged, Refunded;
    ExchangeChanges(l, a, give, g, b, have, h);
    var l4 := Exchanged(l, a, give, g, b, have, h).value;
    RefundChanges(l4, a, give, ra);
    RefundChanges(Refunded(l4, a, give, ra).value, b, have, rb);
  }

  /** A settlement of two tradable orders is the movement of their shares and refunds. */
  lemma SettleMoved(l: Ledger, give: TokenId, have: TokenId, taker: Order, maker: Order)
    requires Tradable(taker, maker) && 0 < maker.price && Settle(l, give, have, taker, maker).Ok?
    ensures var s := Settle(l, give, have, taker, maker).value;
            var g, h := GiveOf(s.fill, taker.otype), HaveOf(s.fill, taker.otype);
            && FillFits(s.fill, taker, maker)
            && GiveOf(s.fill, maker.otype) == h && HaveOf(s.fill, maker.otype) == g
            && 0 < g <= taker.remainedSell && 0 < h <= taker.remainedBuy
            && h <= maker.remainedSell && g <= maker.remainedBuy
            && s.taker == AfterFill(taker, g, h) && s.maker == AfterFill(maker, h, g)
            && s.takerBack == RestOf(taker, g, h) && s.makerBack == RestOf(maker, h, g)
            && taker.remainedSell - s.taker.remainedSell == g + s.takerBack
            && maker.remainedSell - s.maker.remainedSell == h + s.makerBack
            && Exchanged(l, taker.owner, give, g, maker.owner, have, h).Ok?
            && Moved(l, taker.owner, give, g, RestOf(taker, g, h), maker.owner, have, h, RestOf(maker, h, g))
               == Ok(s.ledger)
  {
    hide OrderOk, AfterFill, Exchanged, Refunded, Closed, Deducted, Started, CalculateExAmount;
    TradeFill(taker, maker);
    var fill := CalculateExAmount(maker, taker).value;
    var g, h := GiveOf(fill, taker.otype), HaveOf(fill, taker.otype);
    DeductedIs(taker, g, h);
    DeductedIs(maker, h, g);
    var l4 := Exchanged(l, taker.owner, give, g, maker.owner, have, h).value;
    var taker1 := Deducted(Started(taker), g, h).value;
    ClosedIs(l4, taker1, give);
    ClosedIs(Closed(l4, taker1, give).value.0, Deducted(Started(maker), h, g).value, have);
  }

  /** A trade that goes through fills one of its orders, takes out of frozen exactly what leaves the two,
      and keeps everything about the ledger but, perhaps, conservation. */
  lemma SettleEffect(l: Ledger, give: TokenId, have: TokenId, taker: Order, maker: Order)
    requires Tradable(taker, maker) && 0 < maker.price && give != have && Settle(l, give, have, taker, maker).Ok?
    ensures var s := Settle(l, give, have, taker, maker).value;
            && FillFits(s.fill, taker, maker)
            && s.taker == AfterFill(taker, GiveOf(s.fill, taker.otype), HaveOf(s.fill, taker.otype))
            && s.maker == AfterFill(maker, GiveOf(s.fill, maker.otype), HaveOf(s.fill, maker.otype))
            && s.takerBack == RestOf(taker, GiveOf(s.fill, taker.otype), HaveOf(s.fill, taker.otype))
            && s.makerBack == RestOf(maker, GiveOf(s.fill, maker.otype), HaveOf(s.fill, maker.otype))
            && (Orderly(l) ==> Orderly(s.ledger))
            && s.ledger.supply == l.supply && s.ledger.owners == l.owners
            && l.free.Keys <= s.ledger.free.Keys
            && (forall h: Holding :: Get(s.ledger.frozen, h) == Get(l.frozen, h)
                 - (if h == (taker.owner, give) then taker.remainedSell - s.taker.remainedSell else 0)
                 - (if h == (maker.owner, have) then maker.remainedSell - s.maker.remainedSell else 0))
  {
    hide Orderly, Tradable, FillFits, AfterFill, Settle, Moved;
    SettleMoved(l, give, have, taker, maker);
    var s := Settle(l, give, have, taker, maker).value;
    var g, h := GiveOf(s.fill, taker.otype), HaveOf(s.fill, taker.otype);
    MoveChanges(l, taker.owner, give, g, RestOf(taker, g, h), maker.owner, have, h, RestOf(maker, h, g));
  }

  lemma ExchangeTotals(l: Ledger, a: AccountId, give: TokenId, g: nat, b: AccountId, have: TokenId, h: nat, t: TokenId)
    requires Exchanged(l, a, give, g, b, have, h).Ok?
    ensures Total(Exchanged(l, a, give, g, b, have, h).value.balance, t) == Total(l.balance, t)
            + (if a == b && t == give then g else 0) + (if a == b && t == have then h else 0)
  {
    hide Unfreeze, Transfer, Total;
    UnfreezeChanges(l, a, give, g);
    var l1 := Unfreeze(l, a, give, g).value;
    UnfreezeChanges(l1, b, have, h);
    var l2 := Unfreeze(l1, b, have, h).value;
    TransferTotals(l2, a, b, give, g, t);
    TransferTotals(Transfer(l2, a, b, give, g).value, b, a, have, h, t);
  }

  /** A trade that goes through keeps every total, except that one with oneself creates what it moves. */
  lemma SettleTotals(l: Ledger, give: TokenId, have: TokenId, taker: Order, maker: Order, t: TokenId)
    requires Tradable(taker, maker) && 0 < maker.price && give != have && Settle(l, give, have, taker, maker).Ok?
    ensures var s := Settle(l, give, have, taker, maker).value;
            && 0 < GiveOf(s.fill, taker.otype)
            && Total(s.ledger.balance, t) == Total(l.balance, t) +
                 if taker.owner != maker.owner then 0
                 else if t == give then GiveOf(s.fill, taker.otype)
                 else if t == have then HaveOf(s.fill, taker.otype)
                 else 0
  {
    hide Tradable, FillFits, AfterFill, Settle, Total;
    SettleMoved(l, give, have, taker, maker);
    var s := Settle(l, give, have, taker, maker).value;
    var g, h := GiveOf(s.fill, taker.otype), HaveOf(s.fill, taker.otype);
    MoveChanges(l, taker.owner, give, g, RestOf(taker, g, h), maker.owner, have, h, RestOf(maker, h, g));
    ExchangeTotals(l, taker.owner, give, g, maker.owner, have, h, t);
  }

  /** A trade that goes through keeps the ledger sound if and only if its parties are different
      accounts: `do_transfer` to oneself creates the transferred amount, and nothing takes it back. */
  lemma SettleSoundExact(l: Ledger, give: TokenId, have: TokenId, taker: Order, maker: Order)
    requires Tradable(taker, maker) && 0 < maker.price && give != have && Settle(l, give, have, taker, maker).Ok?
    requires Orderly(l) && give in l.supply
    ensures var l' := Settle(l, give, have, taker, maker).value.ledger;
            && (Sound(l) ==> (Sound(l') <==> taker.owner != maker.owner))
            && (Sound(l) && taker.owner == maker.owner ==> Inflated(l'))
            && (Inflated(l) ==> Inflated(l'))
  {
    hide Tradable, Settle, Total, TokensKnown, Split, Bounded;
    SettleEffect(l, give, have, taker, maker);
    var l' := Settle(l, give, have, taker, maker).value.ledger;
    forall t <- l.supply.Keys ensures Total(l'.balance, t) >= Total(l.balance, t)
      ensures taker.owner != maker.owner ==> Total(l'.balance, t) == Total(l.balance, t)
    {
      SettleTotals(l, give, have, taker, maker, t);
    }
    SettleTotals(l, give, have, taker, maker, give);
    if Inflated(l) {
      var t :| t in l.supply && Total(l.balance, t) > l.supply[t];
      assert t in l'.supply && Total(l'.balance, t) > l'.supply[t];
    }
  }

  // ---------- When a trade goes through ----------

  /** What an account has at stake in one token, and that it can be moved. */
  ghost predicate Funded(l: Ledger, owner: AccountId, token: TokenId, amount: nat) {
    Known(l, owner, token).Pass? && amount <= Get(l.frozen, (owner, token))
  }

  lemma UnfreezeFrees(l: Ledger, owner: AccountId, token: TokenId, amount: nat)
    requires Unfreeze(l, owner, token, amount).Ok?
    ensures var l' := Unfreeze(l, owner, token, amount).value;
            && amount <= Get(l'.free, (owner, token))
            && (forall h: Holding :: h.1 != token ==> Get(l'.free, h) == Get(l.free, h))
  {
  }

  lemma TransferElsewhere(l: Ledger, from: AccountId, to: AccountId, token: TokenId, amount: nat)
    requires Transfer(l, from, to, token, amount).Ok?
    ensures var l' := Transfer(l, from, to, token, amount).value;
            forall h: Holding :: h.1 != token ==>
              Get(l'.free, h) == Get(l.free, h) && Get(l'.balance, h) == Get(l.balance, h)
  {
  }

  /** Both parties' new balances are `u128`. */
  predicate CreditsFit(l: Ledger, a: AccountId, give: TokenId, g: nat, b: AccountId, have: TokenId, h: nat) {
    Get(l.balance, (b, give)) + g <= U128_MAX && Get(l.balance, (a, have)) + h <= U128_MAX
  }

  /** Backed shares change hands if and only if both parties' new balances are `u128`. */
  lemma ExchangeExact(l: Ledger, a: AccountId, give: TokenId, g: nat, b: AccountId, have: TokenId, h: nat)
    requires Orderly(l) && give != have && Funded(l, a, give, g) && Funded(l, b, have, h)
    ensures var r := Exchanged(l, a, give, g, b, have, h);
            && (r.Ok? <==> CreditsFit(l, a, give, g, b, have, h))
            && (r.Err? ==> r.error == ArithmeticOverflow)
  {
    hide Orderly, Unfreeze, Transfer;
    UnfreezeExact(l, a, give, g);
    UnfreezeChanges(l, a, give, g);
    UnfreezeFrees(l, a, give, g);
    var l1 := Unfreeze(l, a, give, g).value;
    UnfreezeExact(l1, b, have, h);
    UnfreezeChanges(l1, b, have, h);
    UnfreezeFrees(l1, b, have, h);
    var l2 := Unfreeze(l1, b, have, h).value;
    TransferExact(l2, a, b, give, g);
    if Transfer(l2, a, b, give, g).Ok? {
      TransferChanges(l2, a, b, give, g);
      TransferElsewhere(l2, a, b, give, g);
      TransferExact(Transfer(l2, a, b, give, g).value, b, a, have, h);
    }
  }

  lemma RefundGoes(l: Ledger, owner: AccountId, token: TokenId, rest: nat)
    requires Orderly(l) && Funded(l, owner, token, rest)
    ensures Refunded(l, owner, token, rest).Ok?
  {
    hide Orderly;
    UnfreezeExact(l, owner, token, rest);
  }

  lemma MoveExact(l: Ledger, a: AccountId, give: TokenId, g: nat, ra: nat,
                  b: AccountId, have: TokenId, h: nat, rb: nat)
    requires Orderly(l) && give != have && Funded(l, a, give, g + ra) && Funded(l, b, have, h + rb)
    ensures var r := Moved(l, a, give, g, ra, b, have, h, rb);
            && (r.Ok? <==> CreditsFit(l, a, give, g, b, have, h))
            && (r.Err? ==> r.error == ArithmeticOverflow)
  {
    hide Orderly, Exchanged, Refunded, CreditsFit;
    ExchangeExact(l, a, give, g, b, have, h);
    if Exchanged(l, a, give, g, b, have, h).Ok? {
      ExchangeChanges(l, a, give, g, b, have, h);
      var l4 := Exchanged(l, a, give, g, b, have, h).value;
      RefundGoes(l4, a, give, ra);
      RefundChanges(l4, a, give, ra);
      RefundGoes(Refunded(l4, a, give, ra).value, b, have, rb);
    }
  }

  /** A computed fill of two tradable orders is settled by moving its shares and refunds, nothing else. */
  lemma SettleIsMove(l: Ledger, give: TokenId, have: TokenId, taker: Order, maker: Order)
    requires Tradable(taker, maker) && 0 < maker.price && CalculateExAmount(maker, taker).Ok?
    ensures var fill := CalculateExAmount(maker, taker).value;
            var g, h := GiveOf(fill, taker.otype), HaveOf(fill, taker.otype);
            var m := Moved(l, taker.owner, give, g, RestOf(taker, g, h), maker.owner, have, h, RestOf(maker, h, g));
            && g + RestOf(taker, g, h) <= taker.remainedSell && h + RestOf(maker, h, g) <= maker.remainedSell
            && (Settle(l, give, have, taker, maker).Ok? <==> m.Ok?)
            && (m.Err? ==> Settle(l, give, have, taker, maker) == Err(m.error))
  {
    hide OrderOk, AfterFill, Exchanged, Refunded, Closed, Deducted, Started, CalculateExAmount;
    TradeFill(taker, maker);
    var fill := CalculateExAmount(maker, taker).value;
    var g, h := GiveOf(fill, taker.otype), HaveOf(fill, taker.otype);
    DeductedIs(taker, g, h);
    DeductedIs(maker, h, g);
    var l4 := Exchanged(l, taker.owner, give, g, maker.owner, have, h);
    var taker1 := Deducted(Started(taker), g, h).value;
    if l4.Ok? {
      ClosedIs(l4.value, taker1, give);
      if Closed(l4.value, taker1, give).Ok? {
        ClosedIs(Closed(l4.value, taker1, give).value.0, Deducted(Started(maker), h, g).value, have);
      }
    }
  }

  lemma FillError(maker: Order, taker: Order)
    requires 0 < maker.price && CalculateExAmount(maker, taker).Err?
    ensures CalculateExAmount(maker, taker).error == ArithmeticOverflow
  {
    hide FloorDiv;
  }

  lemma FillExact(maker: Order, taker: Order)
    requires 0 < maker.price
    ensures CalculateExAmount(maker, taker).Ok? <==> forall x <- FillProducts(taker, maker) :: x <= U128_MAX
    ensures CalculateExAmount(maker, taker).Ok? ==>
              CalculateExAmount(maker, taker).value == WrappingExAmount(maker, taker)
  {
    hide FillAmounts, WrappingFillAmounts, Products;
    var (buyer, seller) := if taker.otype.Buy? then (taker, maker) else (maker, taker);
    ProductsExact(buyer.remainedSell, buyer.remainedBuy, seller.remainedSell, seller.remainedBuy, maker.price);
    assert FillProducts(taker, maker) ==
           Products(buyer.remainedSell, buyer.remainedBuy, seller.remainedBuy, maker.price);
    if CalculateExAmount(maker, taker).Ok? {
      WrappingFillAgrees(maker, taker);
    }
  }

  function FillProducts(taker: Order, maker: Order): seq<nat>
    requires 0 < maker.price
  {
    var (buyer, seller) := if taker.otype.Buy? then (taker, maker) else (maker, taker);
    Products(buyer.remainedSell, buyer.remainedBuy, seller.remainedBuy, maker.price)
  }

  /** No product of a fill leaves `u128`, and neither do the two balances that the trade credits. */
  predicate SettleFits(l: Ledger, give: TokenId, have: TokenId, taker: Order, maker: Order)
    requires 0 < maker.price
  {
    var f := WrappingExAmount(maker, taker);
    && (forall x <- FillProducts(taker, maker) :: x <= U128_MAX)
    && CreditsFit(l, taker.owner, give, GiveOf(f, taker.otype), maker.owner, have, HaveOf(f, taker.otype))
  }

  /** A due trade of backed orders, whoever their owners are, goes through if and only if its products and the
      two balances that it credits are `u128`. It fails for no other reason. */
  lemma SettleExact(l: Ledger, give: TokenId, have: TokenId, taker: Order, maker: Order)
    requires Orderly(l) && Tradable(taker, maker) && 0 < maker.price && give != have
    requires Funded(l, taker.owner, give, taker.remainedSell) && Funded(l, maker.owner, have, maker.remainedSell)
    ensures var r := Settle(l, give, have, taker, maker);
            && (r.Ok? <==> SettleFits(l, give, have, taker, maker))
            && (r.Err? ==> r.error == ArithmeticOverflow)
  {
    hide Orderly, Tradable, Exchanged, Closed, Deducted, Started, CalculateExAmount, WrappingExAmount, CreditsFit,
      Moved, RestOf, FillProducts;
    FillExact(maker, taker);
    var f := CalculateExAmount(maker, taker);
    if f.Ok? {
      hide Settle;
      var g, h := GiveOf(f.value, taker.otype), HaveOf(f.value, taker.otype);
      SettleIsMove(l, give, have, taker, maker);
      MoveExact(l, taker.owner, give, g, RestOf(taker, g, h), maker.owner, have, h, RestOf(maker, h, g));
    } else {
      FillError(maker, taker);
    }
  }

  /** In a sound ledger that backs its orders, no step of a trade between different accounts fails, unless the
      first product of its fill leaves `u128`. */
  lemma SettleSafe(l: Ledger, give: TokenId, have: TokenId, taker: Order, maker: Order)
    requires Settleable(l, give, have, taker, maker)
    ensures var r := Settle(l, give, have, taker, maker);
            && (r.Ok? <==> FirstProduct(taker, maker) <= U128_MAX)
            && (r.Ok? ==> Sound(r.value.ledger))
  {
    assert 0 < maker.price;
    hide Orderly, Conserved, OrderOk, CalculateExAmount, WrappingExAmount, FillProducts, Settle, FirstProduct;
    TradeFill(taker, maker);
    FillExact(maker, taker);
    SettleExact(l, give, have, taker, maker);
    if CalculateExAmount(maker, taker).Ok? {
      var f := CalculateExAmount(maker, taker).value;
      CreditWithin(l, taker.owner, maker.owner, give, GiveOf(f, taker.otype), taker.remainedSell);
      CreditWithin(l, maker.owner, taker.owner, have, HaveOf(f, taker.otype), maker.remainedSell);
      SettleSoundExact(l, give, have, taker, maker);
    }
  }

  lemma CreditWithin(l: Ledger, a: AccountId, b: AccountId, token: TokenId, amount: nat, offer: nat)
    requires Sound(l) && a != b && Funded(l, a, token, offer) && amount <= offer
    ensures Get(l.balance, (b, token)) + amount <= U128_MAX
  {
    hide Conserved, TokensKnown, Bounded;
    WithinSupply(l, a, b, token);
    assert Get(l.balance, (a, token)) == Get(l.free, (a, token)) + Get(l.frozen, (a, token));
  }

  /** What a fill leaves an order without any need for. */
  function RestOf(o: Order, give: nat, have: nat): nat {
    if have == o.remainedBuy && give <= o.remainedSell then o.remainedSell - give else 0
  }

  /** The first product is bounded by what the buyer still offers. */
  lemma FirstProductBounded(taker: Order, maker: Order)
    requires Tradable(taker, maker)
    ensures FirstProduct(taker, maker) <= BuyerOf(taker, maker).remainedSell * PRICE_FACTOR
  {
    var (buyer, seller) := if taker.otype.Buy? then (taker, maker) else (maker, taker);
    LeadingProductBounded(buyer.remainedSell, buyer.remainedBuy, buyer.price, seller.remainedBuy, maker.price);
  }
}

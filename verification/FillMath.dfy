/** The integer arithmetic of order admission and of one fill. */
module FillMath {
  import opened Base
  import opened Words
  import opened Orders

  // ---------- Floor division ----------

  /** Division of unsigned integers. */
  function FloorDiv(x: nat, d: nat): (q: nat)
    requires 0 < d
    ensures q * d <= x < q * d + d
  {
    assert x == x / d * d + x % d;
    x / d
  }

  lemma MulMono(a: nat, b: nat, c: nat)
    requires a <= b
    ensures a * c <= b * c
  {
  }

  lemma QuotientAtMost(a: nat, b: nat, d: nat)
    requires a * d < b * d + d
    ensures a <= b
  {
    if b < a {
      MulMono(b + 1, a, d);
    }
  }

  lemma DivUnique(x: nat, d: nat, q: nat)
    requires 0 < d
    requires q * d <= x < q * d + d
    ensures FloorDiv(x, d) == q
  {
    QuotientAtMost(FloorDiv(x, d), q, d);
    QuotientAtMost(q, FloorDiv(x, d), d);
  }

  // ---------- Admission ----------

  function EnsureBounds(price: Price, sellAmount: nat): Outcome {
    if !(0 < price <= U128_MAX) then Fail(BoundsCheckFailedPrice)
    else if !(0 < sellAmount <= U128_MAX) then Fail(BoundsCheckFailedAmount)
    else Pass
  }

  /** The products are taken in 256 bits, where two `u128` factors cannot overflow. */
  function EnsureCounterpartyAmountBounds(otype: OrderType, price: Price, amount: nat): Result<nat>
    requires 0 < price
  {
    var (counterparty, roundTrip) :=
      match otype {
        case Buy =>
          var c := FloorDiv(amount * PRICE_FACTOR, price);
          (c, FloorDiv(c * price, PRICE_FACTOR))
        case Sell =>
          var c := FloorDiv(amount * price, PRICE_FACTOR);
          (c, FloorDiv(c * PRICE_FACTOR, price))
      };
    if amount != roundTrip then Err(BoundsCheckFailedAmount2)
    else if !(counterparty != 0 && counterparty <= U128_MAX) then Err(BoundsCheckFailedAmountCounter)
    else Ok(counterparty)
  }

  /** A floor division followed by the inverse floor division is the identity exactly when the
      first one left no remainder. */
  lemma RoundTripExact(x: nat, m: nat, d: nat)
    requires 0 < m && 0 < d
    ensures var c := FloorDiv(x * m, d); (FloorDiv(c * d, m) == x) <==> (c * d == x * m)
  {
    var c := FloorDiv(x * m, d);
    if c * d == x * m {
      DivUnique(c * d, m, x);
    }
  }

  /** Admission passes exactly on the amounts that convert without a remainder. */
  lemma AdmissionExact(otype: OrderType, price: Price, amount: nat)
    requires 0 < price
    ensures var r := EnsureCounterpartyAmountBounds(otype, price, amount);
            r.Ok? ==> 1 <= r.value <= U128_MAX && ExactAmounts(otype, price, amount, r.value)
                      && Slack(otype, price, amount, r.value)
    ensures forall c :: 1 <= c <= U128_MAX && ExactAmounts(otype, price, amount, c) ==>
              EnsureCounterpartyAmountBounds(otype, price, amount) == Ok(c)
  {
    var (m, d) := if otype.Buy? then (PRICE_FACTOR, price) else (price, PRICE_FACTOR);
    RoundTripExact(amount, m, d);
    forall c | 1 <= c <= U128_MAX && ExactAmounts(otype, price, amount, c)
      ensures EnsureCounterpartyAmountBounds(otype, price, amount) == Ok(c)
    {
      DivUnique(amount * m, d, c);
    }
  }

  // ---------- One fill ----------

  datatype Fill = Fill(base: nat, quote: nat)

  /** Decides which party is filled by a trade at price `p`. `bs`, `bb` are the buyer's remaining
      sell and buy amounts, `ss`, `sb` the seller's. */
  function SellerIsFilled(bs: nat, bb: nat, ss: nat, sb: nat, p: Price): Result<bool>
    requires 0 < p
  {
    if sb <= bs then
      var product :- CheckedMul(sb, PRICE_FACTOR);
      Ok(!(bb < FloorDiv(product, p)))
    else
      var product :- CheckedMul(bb, p);
      Ok(!(sb >= FloorDiv(product, PRICE_FACTOR)))
  }

  function FillAmounts(bs: nat, bb: nat, ss: nat, sb: nat, p: Price): Result<Fill>
    requires 0 < p
  {
    var sellerFilled :- SellerIsFilled(bs, bb, ss, sb, p);
    if sellerFilled then
      var product :- CheckedMul(sb, PRICE_FACTOR);
      var quote := FloorDiv(product, p);
      var back :- CheckedMul(quote, p);
      Ok(Fill(sb, if FloorDiv(back, PRICE_FACTOR) != sb && bb > quote then quote + 1 else quote))
    else
      var product :- CheckedMul(bb, p);
      var base := FloorDiv(product, PRICE_FACTOR);
      var back :- CheckedMul(base, PRICE_FACTOR);
      Ok(Fill(if FloorDiv(back, p) != bb && sb > base then base + 1 else base, bb))
  }

  /** The trade executes at the resting order's price. */
  function CalculateExAmount(maker: Order, taker: Order): Result<Fill>
    requires 0 < maker.price
  {
    var (buyer, seller) := if taker.otype.Buy? then (taker, maker) else (maker, taker);
    FillAmounts(buyer.remainedSell, buyer.remainedBuy, seller.remainedSell, seller.remainedBuy, maker.price)
  }

  // ---------- The fill as the runtime computes it, in wrapping `u128` words ----------

  function WrappingSellerIsFilled(bs: nat, bb: nat, sb: nat, p: Price): bool
    requires 0 < p
  {
    if sb <= bs then !(bb < FloorDiv(WrappingMul(sb, PRICE_FACTOR), p))
    else !(sb >= FloorDiv(WrappingMul(bb, p), PRICE_FACTOR))
  }

  function WrappingFillAmounts(bs: nat, bb: nat, sb: nat, p: Price): Fill
    requires 0 < p
  {
    if WrappingSellerIsFilled(bs, bb, sb, p) then
      var quote := FloorDiv(WrappingMul(sb, PRICE_FACTOR), p);
      var back := FloorDiv(WrappingMul(quote, p), PRICE_FACTOR);
      Fill(sb, if back != sb && bb > quote then quote + 1 else quote)
    else
      var base := FloorDiv(WrappingMul(bb, p), PRICE_FACTOR);
      var back := FloorDiv(WrappingMul(base, PRICE_FACTOR), p);
      Fill(if back != bb && sb > base then base + 1 else base, bb)
  }

  function WrappingExAmount(maker: Order, taker: Order): Fill
    requires 0 < maker.price
  {
    var (buyer, seller) := if taker.otype.Buy? then (taker, maker) else (maker, taker);
    WrappingFillAmounts(buyer.remainedSell, buyer.remainedBuy, seller.remainedBuy, maker.price)
  }

  /** A fill whose products all fit is what the runtime computes. */
  lemma WrappingFillAgrees(maker: Order, taker: Order)
    requires 0 < maker.price && CalculateExAmount(maker, taker).Ok?
    ensures WrappingExAmount(maker, taker) == CalculateExAmount(maker, taker).value
  {
    hide Wrap, FloorDiv;
  }

  predicate FillPre(bs: nat, bb: nat, pb: Price, ss: nat, sb: nat, ps: Price, p: Price) {
    && 0 < bb && 0 < sb
    && 0 < ps <= p <= pb
    && Slack(Buy, pb, bs, bb)
    && Slack(Sell, ps, ss, sb)
  }

  /** The seller is the one whom a trade at price `p` fills, if the buyer can pay for all that he wants, and
      wants no less than the whole units of quote that this is worth. */
  predicate SellerFirst(bs: int, bb: int, sb: int, p: Price) {
    sb <= bs && sb * PRICE_FACTOR < bb * p + p
  }

  /** A fill at price `p`: one order gets all that it wants, and gives for it what that is worth, rounded up
      unless the other one does not want as much. */
  ghost predicate AtPrice(f: Fill, bs: int, bb: int, sb: int, p: Price) {
    if SellerFirst(bs, bb, sb, p) then f.base == sb && Rounded(f.quote, sb, PRICE_FACTOR, p, bb)
    else f.quote == bb && Rounded(f.base, bb, p, PRICE_FACTOR, sb)
  }

  /** An amount that is worth a whole number of units is exchanged for exactly that many. */
  lemma RoundedExact(r: nat, x: nat, m: nat, d: nat, cap: nat, q: nat)
    requires Rounded(r, x, m, d, cap) && q * d == x * m
    ensures r == q
  {
    QuotientAtMost(r, q, d);
    QuotientAtMost(q, r, d);
  }

  /** The first product that the fill computes; the others are no larger. */
  function LeadingProduct(bs: nat, bb: nat, sb: nat, p: Price): nat {
    if sb <= bs then sb * PRICE_FACTOR else bb * p
  }

  predicate FillPost(f: Fill, bs: nat, bb: nat, pb: Price, ss: nat, sb: nat, ps: Price) {
    && 0 < f.base <= bs && f.base <= sb
    && 0 < f.quote <= bb && f.quote <= ss
    && (f.base == sb || f.quote == bb)
    && Slack(Buy, pb, bs - f.base, bb - f.quote)
    && Slack(Sell, ps, ss - f.quote, sb - f.base)
  }

  lemma SlackAfter(a: nat, b: nat, c: nat, d: nat, m: nat, n: nat)
    requires c <= a && d <= b
    requires b * n <= a * m
    requires c * m <= d * n
    ensures (b - d) * n <= (a - c) * m
  {
  }

  /** `r` is the quotient of `x * m` by `d`, within one unit of it, and the rounded-up one unless that would
      be more than `cap`. If the division leaves no remainder, it is therefore the quotient itself. */
  ghost predicate Rounded(r: int, x: int, m: nat, d: nat, cap: int) {
    && r <= cap
    && x * m - d < r * d < x * m + d
    && (r < cap ==> x * m <= r * d)
  }

  lemma RoundUp(x: nat, m: nat, d: nat, cap: nat)
    requires 0 < m && 0 < d
    requires FloorDiv(x * m, d) <= cap
    ensures var q := FloorDiv(x * m, d);
            var r := if FloorDiv(q * d, m) != x && cap > q then q + 1 else q;
            Rounded(r, x, m, d, cap) && (0 < x && 0 < cap ==> 0 < r)
  {
    RoundTripExact(x, m, d);
    assert 0 < x ==> 0 < x * m;
  }

  lemma FillSeller(f: Fill, bs: nat, bb: nat, pb: Price, ss: nat, sb: nat, ps: Price, p: Price)
    requires FillPre(bs, bb, pb, ss, sb, ps, p)
    requires sb <= bs
    requires f.base == sb && 0 < f.quote && Rounded(f.quote, sb, PRICE_FACTOR, p, bb)
    ensures FillPost(f, bs, bb, pb, ss, sb, ps)
  {
    Affordable(f.quote, sb, PRICE_FACTOR, p, ss, ps);
    assert Slack(Sell, ps, ss - f.quote, 0);
    if f.quote < bb {
      MulMono(p, pb, f.quote);
      SlackAfter(bs, bb, sb, f.quote, PRICE_FACTOR, pb);
    }
  }

  /** A rounded quotient at a price no better than the limit is covered by the slack. */
  lemma Affordable(r: nat, x: nat, m: nat, d: nat, held: nat, limit: nat)
    requires r * d < x * m + d
    requires limit <= d
    requires x * m <= held * limit
    ensures r <= held
  {
    MulMono(limit, d, held);
    QuotientAtMost(r, held, d);
  }

  lemma FillBuyer(f: Fill, bs: nat, bb: nat, pb: Price, ss: nat, sb: nat, ps: Price, p: Price)
    requires FillPre(bs, bb, pb, ss, sb, ps, p)
    requires bb <= ss
    requires f.quote == bb && 0 < f.base && Rounded(f.base, bb, p, PRICE_FACTOR, sb)
    ensures FillPost(f, bs, bb, pb, ss, sb, ps)
  {
    MulMono(p, pb, bb);
    QuotientAtMost(f.base, bs, PRICE_FACTOR);
    if f.base < sb {
      MulMono(ps, p, bb);
      SlackAfter(ss, sb, bb, f.base, ps, PRICE_FACTOR);
    }
  }

  lemma BuyerCheaper(bs: nat, bb: nat, pb: Price, ss: nat, sb: nat, ps: Price, p: Price)
    requires FillPre(bs, bb, pb, ss, sb, ps, p)
    requires sb <= bs ==> bb < FloorDiv(sb * PRICE_FACTOR, p)
    ensures bb * p < sb * PRICE_FACTOR
  {
  }

  /** When the buyer is the filled side, the seller can deliver and the proceeds fit. */
  lemma BuyerSide(bb: nat, ss: nat, sb: nat, ps: Price, p: Price)
    requires bb * p < sb * PRICE_FACTOR
    requires ps <= p
    requires Slack(Sell, ps, ss, sb)
    ensures bb <= ss
    ensures FloorDiv(bb * p, PRICE_FACTOR) < sb
  {
    Affordable(bb, sb, PRICE_FACTOR, p, ss, ps);
    var q := FloorDiv(bb * p, PRICE_FACTOR);
    if sb <= q {
      MulMono(sb, q, PRICE_FACTOR);
    }
  }

  lemma SellerFirstExact(bs: nat, bb: nat, sb: nat, p: Price)
    requires 0 < p
    ensures SellerFirst(bs, bb, sb, p) <==> sb <= bs && FloorDiv(sb * PRICE_FACTOR, p) <= bb
  {
    var q := FloorDiv(sb * PRICE_FACTOR, p);
    if q <= bb {
      MulMono(q, bb, p);
    } else {
      MulMono(bb + 1, q, p);
    }
  }

  /** Fill safety. Under the slack of both orders and with the trade price between their limits,
      the fill is computed without leaving `u128` exactly when its first product fits, and then it
      is at the trade price, positive, within both orders' remainders on both sides, fills one of them
      completely and keeps the slack of both. */
  lemma FillSafe(bs: nat, bb: nat, pb: Price, ss: nat, sb: nat, ps: Price, p: Price)
    requires FillPre(bs, bb, pb, ss, sb, ps, p)
    ensures var r := FillAmounts(bs, bb, ss, sb, p);
            && (r.Ok? <==> LeadingProduct(bs, bb, sb, p) <= U128_MAX)
            && (r.Ok? ==> FillPost(r.value, bs, bb, pb, ss, sb, ps) && AtPrice(r.value, bs, bb, sb, p))
  {
    SellerFirstExact(bs, bb, sb, p);
    if LeadingProduct(bs, bb, sb, p) <= U128_MAX {
      if sb <= bs && FloorDiv(sb * PRICE_FACTOR, p) <= bb {
        RoundUp(sb, PRICE_FACTOR, p, bb);
        FillSeller(FillAmounts(bs, bb, ss, sb, p).value, bs, bb, pb, ss, sb, ps, p);
      } else {
        BuyerCheaper(bs, bb, pb, ss, sb, ps, p);
        BuyerSide(bb, ss, sb, ps, p);
        RoundUp(bb, p, PRICE_FACTOR, sb);
        FillBuyer(FillAmounts(bs, bb, ss, sb, p).value, bs, bb, pb, ss, sb, ps, p);
      }
    }
  }

  /** The products that a fill computes, in their order. */
  function Products(bs: nat, bb: nat, sb: nat, p: Price): seq<nat>
    requires 0 < p
  {
    var first := LeadingProduct(bs, bb, sb, p);
    var sellerFilled := if sb <= bs then !(bb < FloorDiv(first, p)) else !(sb >= FloorDiv(first, PRICE_FACTOR));
    if sellerFilled then [first, sb * PRICE_FACTOR, FloorDiv(sb * PRICE_FACTOR, p) * p]
    else [first, bb * p, FloorDiv(bb * p, PRICE_FACTOR) * PRICE_FACTOR]
  }

  lemma AllAtMost(all: seq<nat>, bound: nat)
    requires |all| == 3
    ensures (forall x <- all :: x <= bound) <==> all[0] <= bound && all[1] <= bound && all[2] <= bound
  {
    assert forall x <- all :: x == all[0] || x == all[1] || x == all[2];
    assert all[0] in all && all[1] in all && all[2] in all;
  }

  /** A fill is computed if and only if none of its products leaves `u128`. */
  lemma ProductsExact(bs: nat, bb: nat, ss: nat, sb: nat, p: Price)
    requires 0 < p
    ensures FillAmounts(bs, bb, ss, sb, p).Ok? <==> forall x <- Products(bs, bb, sb, p) :: x <= U128_MAX
  {
    var all := Products(bs, bb, sb, p);
    AllAtMost(all, U128_MAX);
    var ok := FillAmounts(bs, bb, ss, sb, p).Ok?;
    assert ok <==> all[0] <= U128_MAX && all[1] <= U128_MAX && all[2] <= U128_MAX;
  }

  /** Under the slack of both orders, no product of the fill is larger than its first one. */
  lemma ProductsBounded(bs: nat, bb: nat, pb: Price, ss: nat, sb: nat, ps: Price, p: Price)
    requires FillPre(bs, bb, pb, ss, sb, ps, p)
    ensures forall x <- Products(bs, bb, sb, p) :: x <= LeadingProduct(bs, bb, sb, p)
  {
    if sb > bs || bb < FloorDiv(sb * PRICE_FACTOR, p) {
      BuyerCheaper(bs, bb, pb, ss, sb, ps, p);
      BuyerSide(bb, ss, sb, ps, p);
    }
    hide FillPre;
    AllAtMost(Products(bs, bb, sb, p), LeadingProduct(bs, bb, sb, p));
  }

  /** The first product is bounded by the buyer's frozen amount, so a cap on the supply of the base
      token keeps every reachable fill inside `u128`. */
  lemma LeadingProductBounded(bs: nat, bb: nat, pb: Price, sb: nat, p: Price)
    requires p <= pb
    requires Slack(Buy, pb, bs, bb)
    ensures LeadingProduct(bs, bb, sb, p) <= bs * PRICE_FACTOR
  {
  }
}

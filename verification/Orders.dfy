/** Orders, as the trade pallet stores them. */
module Orders {
  import opened Base

  datatype OrderType = Buy | Sell {
    function Not(): OrderType {
      if Buy? then Sell else Buy
    }
  }

  datatype OrderStatus = Created | PartialFilled | Filled | Canceled

  datatype Order = Order(
    id: OrderId,
    base: TokenId,
    quote: TokenId,
    owner: AccountId,
    price: Price,
    sellAmount: nat,
    buyAmount: nat,
    remainedSell: nat,
    remainedBuy: nat,
    otype: OrderType,
    status: OrderStatus
  ) {
    predicate IsFinished() {
      (status.Filled? && remainedBuy == 0) || status.Canceled?
    }

    /** The token an order gives: a buyer gives the base token, a seller the quote token. */
    function SellToken(): TokenId {
      if otype.Buy? then base else quote
    }
  }

  /** A limit order accepts a resting price that is no worse than its own. */
  predicate PriceMatched(orderPrice: Price, otype: OrderType, itemPrice: Price) {
    match otype
    case Sell => orderPrice <= itemPrice
    case Buy => orderPrice >= itemPrice
  }

  /** `give` units given for `have` units respect the limit price of an order of type `otype`:
      a buyer pays at most, a seller gets at least, `price / PRICE_FACTOR` base units per quote unit. */
  predicate WithinLimit(otype: OrderType, price: Price, give: nat, have: nat) {
    match otype
    case Buy => give * PRICE_FACTOR <= have * price
    case Sell => give * price <= have * PRICE_FACTOR
  }

  /** What is still frozen suffices, at the limit price, for what is still wanted. */
  predicate Slack(otype: OrderType, price: Price, sell: nat, buy: nat) {
    match otype
    case Buy => sell * PRICE_FACTOR >= buy * price
    case Sell => sell * price >= buy * PRICE_FACTOR
  }

  predicate ExactAmounts(otype: OrderType, price: Price, sell: nat, buy: nat) {
    match otype
    case Buy => sell * PRICE_FACTOR == buy * price
    case Sell => sell * price == buy * PRICE_FACTOR
  }
}

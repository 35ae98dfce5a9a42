/** Vocabulary shared by every component: identifiers, 128-bit bounds, results and errors. */
module Base {

  /** Largest value of the runtime's `u128`, which is both its `Balance` and its `Price`. */
  const U128_MAX: nat := 0xFFFF_FFFF_FFFF_FFFF_FFFF_FFFF_FFFF_FFFF
  const TWO_TO_128: nat := U128_MAX + 1

  type PositiveU128 = x: int | 0 < x <= U128_MAX witness 1

  /** `T::PriceFactor`: any positive `u128`. The runtime configures 100_000_000. */
  const PRICE_FACTOR: PositiveU128

  /** `T::BlocksPerDay`: any positive number of blocks. The runtime configures 6 * 60 * 24. */
  const BLOCKS_PER_DAY: PositiveU128

  // Hashes and account ids are opaque names; a hash that the pallets compute is a fresh name.
  type AccountId = nat
  type TokenId = nat
  type PairId = nat
  type OrderId = nat
  type Price = nat

  datatype Option<+T> = None | Some(value: T)

  datatype Error =
    | NoMatchingToken
    | SenderHaveNoToken
    | BalanceNotEnough
    | MustNotTransferYourself
    | BoundsCheckFailedPrice
    | BoundsCheckFailedAmount
    | BoundsCheckFailedAmount2
    | BoundsCheckFailedAmountCounter
    | BaseEqualQuote
    | TokenOwnerNotFound
    | SenderNotEqualToBaseOrQuoteOwner
    | TradePairExisted
    | NoMatchingTradePair
    | OrderMatchGetPriceError
    | OrderMatchGetLinkedListItemError
    | OrderMatchGetOrderError
    | OrderMatchSubstractError
    | OrderMatchOrderIsNotFinished
    | NoMatchingOrder
    | CanOnlyCancelOwnOrder
    | CanOnlyCancelNotFinishedOrder
    | OrderNotInList
    | CannotGetOrder
    | NotFinishedOrder
    | ArithmeticOverflow  // a plain `u128` operator left the range of `u128`: the runtime wraps or stops

  datatype Result<+T> = Ok(value: T) | Err(error: Error) {
    predicate IsFailure() { Err? }

    function PropagateFailure<U>(): Result<U>
      requires Err?
    {
      Err(error)
    }

    function Extract(): T
      requires Ok?
    {
      value
    }
  }

  datatype Outcome = Pass | Fail(error: Error) {
    predicate IsFailure() { Fail? }

    function PropagateFailure<U>(): Result<U>
      requires Fail?
    {
      Err(error)
    }
  }

  /** `ensure!(condition, error)` */
  function Ensure(condition: bool, error: Error): Outcome {
    if condition then Pass else Fail(error)
  }

  /** A product of two `u128` values computed with the plain `*` operator. */
  function CheckedMul(a: nat, b: nat): Result<nat> {
    if a * b <= U128_MAX then Ok(a * b) else Err(ArithmeticOverflow)
  }
}

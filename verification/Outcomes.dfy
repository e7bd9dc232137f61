/** How a call ends: with a value, or with the panic that reverts it. */
module Outcomes {

  datatype Option<+T> = None | Some(value: T)

  /** The panics of the contract. `IsBug` singles out the ones the source believes unreachable. */
  datatype Error =
    | ContractNotActive
    | CannotCancel
    | MarketNotActive
    | MarketNotFound
    | MarketExists
    | InvalidMarket
    | AccountNotFound
    | AccountNotEmpty
    | InvalidOrder
    | InvalidAmount
    | MissingLimitPrice
    | OutsideTradingWindow
    | ZeroOrderAmount
    | SelfTrade
    | NotAPlacement
    | NotAnEnumeration
    | InsufficientBalance
    | InsufficientStorage
    | ExceededOrderLimit
    | OrderNotFound
    | NotOwner
    | WrongSwapToken
    | NoSwaps
    | ExceededSlippage
    | NoSuchSend
    | Overflow
    | DivisionByZero
    | Underflow
    | OverCountedFees
    | Overspent
    | Oversold
    | MakerNotFound
    | OrderNotOnBook
    | OrderNotOwned

  /**
   * What the code holds impossible: an accounting assertion, the lookup of a fill's maker, the "should never
   * happen" lookup of a cancelled order and the assertion of its owner, and an unchecked `-`. An `unwrap`
   * that ordinary input can reach is an ordinary error.
   */
  predicate IsBug(e: Error) {
    e in {Underflow, OverCountedFees, Overspent, Oversold, MakerNotFound, OrderNotOnBook, OrderNotOwned}
  }

  datatype Result<+T> = Ok(value: T) | Err(error: Error) {
    predicate IsFailure() {
      Err?
    }

    function PropagateFailure<U>(): Result<U>
      requires Err?
    {
      Err(error)
    }

    function Extract(): T
      requires Ok?
    {
      value
    }
  }

  datatype Check = Pass | Fail(error: Error) {
    predicate IsFailure() {
      Fail?
    }

    function PropagateFailure<U>(): Result<U>
      requires Fail?
    {
      Err(error)
    }
  }

  function Need(condition: bool, error: Error): Check {
    if condition then Pass else Fail(error)
  }

  function Expect<T>(option: Option<T>, error: Error): Result<T> {
    match option
    case Some(v) => Ok(v)
    case None => Err(error)
  }

  const TWO_64: nat := 0x1_0000_0000_0000_0000
  const TWO_128: nat := 0x1_0000_0000_0000_0000_0000_0000_0000_0000
  const TWO_256: nat := 0x1_0000_0000_0000_0000_0000_0000_0000_0000_0000_0000_0000_0000_0000_0000_0000_0000

  /** A balance is an unsigned 128-bit integer. */
  type Amount = n: nat | n < TWO_128

  /** A result kept in an unsigned integer of the given size; the build has overflow checks on. */
  function U64(x: nat): Result<nat> {
    if x < TWO_64 then Ok(x) else Err(Overflow)
  }

  function U128(x: nat): Result<nat> {
    if x < TWO_128 then Ok(x) else Err(Overflow)
  }

  function U256(x: nat): Result<nat> {
    if x < TWO_256 then Ok(x) else Err(Overflow)
  }

  /** Unsigned subtraction. */
  function Minus(x: nat, y: nat): Result<nat> {
    if y <= x then Ok(x - y) else Err(Underflow)
  }
}

/** Identifiers and small records shared by the whole exchange. */
module Types {
  import opened Outcomes

  datatype AccountId = AccountId(name: string)
  datatype MarketId = MarketId(hash: nat)

  /** The token type, which doubles as the key of an account balance. */
  datatype Token =
    | NativeNear
    | FungibleToken(contract: AccountId)
    | MultiFungibleToken(contract: AccountId, subtoken: string)

  /** The sequence number inside a packed order id, which alone tells two orders apart. */
  datatype OrderId = OrderId(sequence: nat)

  /** What an account remembers of a resting order: its original size and posting time. */
  datatype OrderInfo = OrderInfo(originalQty: nat, timestamp: nat)

  datatype Side = Buy | Sell

  datatype OrderType = Limit | ImmediateOrCancel | PostOnly | FillOrKill | Market

  datatype ContractState = Active | Paused | CancelOnly

  datatype MarketState = Uninitialized | Trading | Halted | Closing

  /** Lot sizes in native units, and ten to the power of the base decimals. */
  datatype Lots = Lots(base: nat, quote: nat, denomination: nat)

  /** The part of a market that trading never changes. */
  datatype MarketTerms = MarketTerms(
    baseToken: Token,
    quoteToken: Token,
    lots: Lots,
    takerRate: nat,
    makerRate: nat,
    maxOrders: nat,
    minBidBps: nat,
    maxAskBps: nat)

  /** What market creation and the metadata callbacks establish. */
  predicate TermsOk(t: MarketTerms) {
    && 1 <= t.lots.base < TWO_128
    && 1 <= t.lots.quote < TWO_128
    && 1 <= t.lots.denomination < TWO_128
    && t.makerRate <= t.takerRate <= 255
  }

  type Terms = t: MarketTerms | TermsOk(t)
    witness MarketTerms(NativeNear, NativeNear, Lots(1, 1, 1), 0, 0, 0, 0, 0)

  datatype NewOrderParams = NewOrderParams(
    limitPrice: Option<nat>,
    maxSpend: Option<nat>,
    quantity: nat,
    side: Side,
    orderType: OrderType,
    referrer: Option<AccountId>)
}

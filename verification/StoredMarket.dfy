/** Markets as stored, and their conversions between lots and native units. */
module StoredMarket {
  import opened Arithmetic
  import opened MatchingEngine
  import opened OrderBook
  import opened Outcomes
  import opened Types

  datatype VMarket = VMarket(terms: Terms, state: MarketState, book: Book, feesAccrued: nat)

  /** The cast to a 64-bit integer keeps only the low bits. */
  function ToLots(amount: nat, lotSize: nat): nat
    requires lotSize > 0
  {
    amount / lotSize % TWO_64
  }

  function ToNative(lots: nat, lotSize: nat): Result<nat> {
    U128(lots * lotSize)
  }

  lemma LotsWithin(amount: nat, lotSize: nat)
    requires lotSize > 0
    ensures ToLots(amount, lotSize) * lotSize <= amount
    ensures ToLots(amount, lotSize) < TWO_64
  {
    DivideBack(amount, lotSize);
    MulMonotone(ToLots(amount, lotSize), amount / lotSize, lotSize);
  }

  /** An amount in whole lots, rounded down. */
  predicate WholeLots(amount: int, lots: nat, lotSize: nat) {
    lots * lotSize <= amount < lots * lotSize + lotSize
  }

  /** A conversion that fits 64 bits loses less than a lot. */
  lemma LotsExactly(amount: nat, lotSize: nat)
    requires lotSize > 0
    requires amount / lotSize < TWO_64
    ensures WholeLots(amount, ToLots(amount, lotSize), lotSize)
  {
    LotsUncut(amount, lotSize);
    hide ToLots;
    DivideBack(amount, lotSize);
  }

  lemma LotsUncut(amount: nat, lotSize: nat)
    requires lotSize > 0
    requires amount / lotSize < TWO_64
    ensures ToLots(amount, lotSize) == amount / lotSize
  {
    var lots: nat := amount / lotSize;
    assert lots % TWO_64 == lots;
  }

  predicate CanCancel(m: VMarket) {
    m.state.Trading? || m.state.Closing?
  }

  /** Lot sizes pass creation when they are one or a positive multiple of ten. */
  predicate ValidLotSize(lot: nat) {
    (lot % 10 == 0 || lot == 1) && lot != 0
  }

  /** The fee-rate check of market creation. */
  predicate ValidRates(maker: nat, taker: nat) {
    maker < taker || (maker == 0 && taker == 0)
  }

  /** The lot condition that the fungible-token metadata callback checks. */
  predicate LotsCoverDenomination(lots: Lots) {
    lots.base * lots.quote >= lots.denomination
  }

  predicate EvenLots(lots: Lots) {
    lots.denomination > 0 && (lots.base * lots.quote) % lots.denomination == 0
  }

  /** Power-of-ten lot sizes that pass the metadata check divide evenly, so no quote is ever rounded away. */
  lemma PowerOfTenLotsAreEven(lots: Lots, i: nat, j: nat, decimals: nat)
    requires lots.base == Pow10(i) && lots.quote == Pow10(j) && lots.denomination == Pow10(decimals)
    requires LotsCoverDenomination(lots)
    ensures EvenLots(lots)
  {
    Pow10Adds(i, j);
    if i + j < decimals {
      Pow10Grows(i + j, decimals);
    } else {
      Pow10Adds(i + j - decimals, decimals);
      EvenWhenMultiple(lots, Pow10(i + j - decimals));
    }
  }

  lemma EvenWhenMultiple(lots: Lots, k: nat)
    requires lots.denomination > 0
    requires lots.base * lots.quote == k * lots.denomination
    ensures EvenLots(lots)
  {
    FloorUnique(lots.denomination, lots.denomination, 1);
    MultipleOfDivisor(k, lots.denomination, lots.denomination);
  }

  predicate SplitsExactly(lots: Lots, x: nat, y: nat, price: nat)
    requires lots.denomination > 0
  {
    QuoteValue(lots, x + y, price) == QuoteValue(lots, x, price) + QuoteValue(lots, y, price)
  }

  /** Even lots are exactly those under which no order can be split into parts that lose a unit. */
  lemma EvenLotsExactly(lots: Lots)
    requires lots.denomination > 0
    ensures EvenLots(lots) <==> forall x, y, price :: SplitsExactly(lots, x, y, price)
  {
    if EvenLots(lots) {
      forall x: nat, y: nat, price: nat
        ensures SplitsExactly(lots, x, y, price)
      {
        BidSplit(lots, price, x, y);
      }
    } else if forall x, y, price :: SplitsExactly(lots, x, y, price) {
      SplitsMakeEven(lots);
    }
  }

  lemma SplitsMakeEven(lots: Lots)
    requires lots.denomination > 0
    requires forall x, y, price :: SplitsExactly(lots, x, y, price)
    ensures EvenLots(lots)
  {
    var d, k := lots.denomination, QuoteValue(lots, 1, 1);
    SplitsAreMultiples(lots, d);
    WholeDenomination(lots);
    hide QuoteValue, SplitsExactly;
    EvenWhenMultiple(lots, k);
  }

  lemma WholeDenomination(lots: Lots)
    requires lots.denomination > 0
    ensures QuoteValue(lots, lots.denomination, 1) == lots.base * lots.quote
  {
    var d, u := lots.denomination, lots.base * lots.quote;
    assert UnitValue(lots, 1) == u;
    hide UnitValue;
    assert u * d <= d * u < u * d + d;
    FloorUnique(d * u, d, u);
  }

  lemma {:induction false} SplitsAreMultiples(lots: Lots, n: nat)
    requires lots.denomination > 0
    requires forall x, y, price :: SplitsExactly(lots, x, y, price)
    ensures QuoteValue(lots, n, 1) == n * QuoteValue(lots, 1, 1)
  {
    if n > 0 {
      SplitsAreMultiples(lots, n - 1);
      assert SplitsExactly(lots, n - 1, 1, 1);
    }
  }

  /** The checks on lot sizes alone are not enough: these pass all of them and still round. */
  lemma CheckedLotsMayBeUneven()
    ensures var lots := Lots(20, 70, Pow10(3));
      && ValidLotSize(lots.base) && ValidLotSize(lots.quote)
      && LotsCoverDenomination(lots)
      && !EvenLots(lots)
      && QuoteValue(lots, 3, 1) != QuoteValue(lots, 2, 1) + QuoteValue(lots, 1, 1)
  {
    assert Pow10(2) == 100;
    assert Pow10(3) == 1000;
  }
}

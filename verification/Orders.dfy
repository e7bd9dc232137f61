/** Limit and market orders: what is asked of the engine, and what the taker pays and receives. */
module Orders {
  import opened Arithmetic
  import opened Fees
  import opened MatchingEngine
  import opened OrderBook
  import opened Outcomes
  import opened Settlement
  import opened StoredAccount
  import opened StoredMarket
  import opened Types

  predicate ValidOrder(p: NewOrderParams) {
    && (p.limitPrice.Some? ==> p.limitPrice.value > 0)
    && (p.maxSpend.Some? ==> p.maxSpend.value > 0)
    && p.quantity > 0
  }

  // ---------- Before matching ----------

  /** The limit price against the best price on the order's own side, in basis points. */
  function PriceRatio(t: Terms, limitPrice: Option<nat>, best: Order): Result<nat> {
    var limit :- Expect(limitPrice, MissingLimitPrice);
    var scaled :- U128(limit * 10_000);
    var native :- ToNative(best.price, t.lots.quote);
    if native == 0 then Err(DivisionByZero) else Ok(scaled / native)
  }

  function BidWindow(t: Terms, b: Book, p: NewOrderParams): Result<()> {
    if b.bids == [] then Ok(())
    else
      var ratio :- PriceRatio(t, p.limitPrice, b.bids[0]);
      if ratio >= t.minBidBps then Ok(()) else Err(OutsideTradingWindow)
  }

  function AskWindow(t: Terms, b: Book, p: NewOrderParams): Result<()> {
    if b.asks == [] then Ok(())
    else
      var ratio :- PriceRatio(t, p.limitPrice, b.asks[0]);
      if ratio <= t.maxAskBps then Ok(()) else Err(OutsideTradingWindow)
  }

  /** The ratio of a price to the best one can be computed. */
  predicate Comparable(t: Terms, limitPrice: Option<nat>, best: Order) {
    && limitPrice.Some? && limitPrice.value * 10_000 < TWO_128
    && 0 < best.price * t.lots.quote < TWO_128
  }

  /** A bid passes when it reaches the window's share of the best bid, compared without rounding. */
  lemma BidWindowIs(t: Terms, b: Book, p: NewOrderParams)
    requires b.bids != []
    ensures BidWindow(t, b, p).Ok? <==>
      && Comparable(t, p.limitPrice, b.bids[0])
      && t.minBidBps * (b.bids[0].price * t.lots.quote) <= p.limitPrice.value * 10_000
  {
    if Comparable(t, p.limitPrice, b.bids[0]) {
      FloorReaches(p.limitPrice.value * 10_000, b.bids[0].price * t.lots.quote, t.minBidBps);
    }
  }

  /** An ask passes when it stays below the next basis point above the window's share of the best ask. */
  lemma AskWindowIs(t: Terms, b: Book, p: NewOrderParams)
    requires b.asks != []
    ensures AskWindow(t, b, p).Ok? <==>
      && Comparable(t, p.limitPrice, b.asks[0])
      && p.limitPrice.value * 10_000 < (t.maxAskBps + 1) * (b.asks[0].price * t.lots.quote)
  {
    if Comparable(t, p.limitPrice, b.asks[0]) {
      FloorReaches(p.limitPrice.value * 10_000, b.asks[0].price * t.lots.quote, t.maxAskBps + 1);
    }
  }

  lemma RatioDivides(t: Terms, limitPrice: Option<nat>, best: Order)
    ensures PriceRatio(t, limitPrice, best) == Err(DivisionByZero)
       <==> best.price == 0 && limitPrice.Some? && limitPrice.value * 10_000 < TWO_128
  {
    if best.price > 0 {
      MulMonotone(1, best.price, t.lots.quote);
    } else {
      assert best.price * t.lots.quote == 0;
    }
  }

  /** Two native prices are compared, and the first is out of the window around the second. */
  predicate OutsideWindow(t: Terms, b: Book, p: NewOrderParams) {
    && !p.orderType.Market?
    && Resting(b, p.side) != []
    && var best := Resting(b, p.side)[0];
       && Comparable(t, p.limitPrice, best)
       && (if p.side == Buy then p.limitPrice.value * 10_000 < t.minBidBps * (best.price * t.lots.quote)
           else p.limitPrice.value * 10_000 >= (t.maxAskBps + 1) * (best.price * t.lots.quote))
  }

  /** A limit order is refused for its price exactly when it is outside the window; what is prepared is inside. */
  lemma PrepareKeepsWindow(t: Terms, b: Book, p: NewOrderParams, sequence: nat)
    requires ValidOrder(p)
    ensures Prepare(t, b, p, sequence) == Err(OutsideTradingWindow) <==> OutsideWindow(t, b, p)
    ensures Prepare(t, b, p, sequence).Ok? && !p.orderType.Market? && Resting(b, p.side) != [] ==>
      Comparable(t, p.limitPrice, Resting(b, p.side)[0])
  {
    hide PriceRatio, QtyFor, Withhold, ToLots;
    WithholdNeverDivides(t.takerRate);
    if Resting(b, p.side) != [] {
      RatioCompares(t, p.limitPrice, Resting(b, p.side)[0]);
      if p.side == Buy {
        BidWindowIs(t, b, p);
      } else {
        AskWindowIs(t, b, p);
      }
    }
  }

  lemma RatioCompares(t: Terms, limitPrice: Option<nat>, best: Order)
    ensures PriceRatio(t, limitPrice, best).Ok? <==> Comparable(t, limitPrice, best)
    ensures Comparable(t, limitPrice, best) ==>
      PriceRatio(t, limitPrice, best) == Ok(limitPrice.value * 10_000 / (best.price * t.lots.quote))
    ensures PriceRatio(t, limitPrice, best) != Err(OutsideTradingWindow)
  {
  }

  /** A limit order with an order at zero lots the best one on its own side. */
  predicate RestsAtZero(b: Book, p: NewOrderParams) {
    && !p.orderType.Market?
    && Resting(b, p.side) != [] && Resting(b, p.side)[0].price == 0
  }

  /** The order is compared with that price. */
  predicate MeetsZeroPrice(b: Book, p: NewOrderParams) {
    && RestsAtZero(b, p)
    && p.limitPrice.Some? && p.limitPrice.value * 10_000 < TWO_128
  }

  lemma PrepareDivides(t: Terms, b: Book, p: NewOrderParams, sequence: nat)
    requires ValidOrder(p)
    ensures Prepare(t, b, p, sequence) == Err(DivisionByZero) <==> MeetsZeroPrice(b, p)
  {
    hide PriceRatio, QtyFor, Withhold, ToLots;
    if Resting(b, p.side) != [] {
      RatioDivides(t, p.limitPrice, Resting(b, p.side)[0]);
    }
    WithholdNeverDivides(t.takerRate);
  }

  lemma WithholdNeverDivides(rate: nat)
    ensures forall x :: Withhold(rate, x) != Err(DivisionByZero) && Withhold(rate, x) != Err(OutsideTradingWindow)
  {
  }

  lemma TakerNeverDivides(t: Terms, mid: MarketId, p: NewOrderParams, o: EngineOrder, pl: Placement, tr: Trade, taker: VAccount, now: nat)
    ensures SettleTaker(t, mid, p, o, pl, tr, taker, now) != Err(DivisionByZero)
    ensures SettleTaker(t, mid, p, o, pl, tr, taker, now) != Err(OutsideTradingWindow)
  {
    hide LockAt;
  }

  /** The explicit spending limit, or the volume that price and quantity imply. */
  function MaxBidDebit(t: Terms, p: NewOrderParams): Result<nat>
    requires TermsOk(t)
  {
    match p.maxSpend
    case Some(q) => Ok(q)
    case None =>
      var limit :- Expect(p.limitPrice, MissingLimitPrice);
      U128(p.quantity * limit / t.lots.denomination)
  }

  /** The base lots that a budget buys at a limit price. */
  function QtyFor(lots: Lots, budget: nat, limit: nat): nat
    requires lots.base > 0 && limit > 0
  {
    budget * lots.denomination / limit / lots.base
  }

  function PrepareLimitBuy(t: Terms, b: Book, p: NewOrderParams, sequence: nat): Result<EngineOrder>
    requires TermsOk(t) && ValidOrder(p)
  {
    var _ :- BidWindow(t, b, p);
    var maxDebit :- MaxBidDebit(t, p);
    var withheld :- Withhold(t.takerRate, maxDebit);
    var available := ToLots(withheld, t.lots.quote);
    :- Need(available != 0, ZeroOrderAmount);
    var limit :- Expect(p.limitPrice, MissingLimitPrice);
    var budget :- ToNative(available, t.lots.quote);
    var affordable :- U64(QtyFor(t.lots, budget, limit));
    var qty := Min(ToLots(p.quantity, t.lots.base), affordable);
    Ok(EngineOrder(sequence, Some(ToLots(limit, t.lots.quote)), qty, Some(available), p.side, p.orderType))
  }

  function PrepareLimitSell(t: Terms, b: Book, p: NewOrderParams, sequence: nat): Result<EngineOrder>
    requires TermsOk(t) && ValidOrder(p)
  {
    var _ :- AskWindow(t, b, p);
    :- Need(p.quantity != 0, ZeroOrderAmount);
    var limit :- Expect(p.limitPrice, MissingLimitPrice);
    Ok(EngineOrder(sequence, Some(ToLots(limit, t.lots.quote)), ToLots(p.quantity, t.lots.base), None, p.side, p.orderType))
  }

  function PrepareMarket(t: Terms, p: NewOrderParams, sequence: nat): Result<EngineOrder>
    requires TermsOk(t) && ValidOrder(p)
  {
    var qty := ToLots(p.quantity, t.lots.base);
    :- Need(qty != 0, ZeroOrderAmount);
    if p.side == Sell then
      Ok(EngineOrder(sequence, None, qty, None, p.side, p.orderType))
    else if p.maxSpend.None? then
      Ok(EngineOrder(sequence, None, qty, Some(TWO_64 - 1), p.side, p.orderType))
    else
      var withheld :- Withhold(t.takerRate, p.maxSpend.value);
      Ok(EngineOrder(sequence, None, qty, Some(ToLots(withheld, t.lots.quote)), p.side, p.orderType))
  }

  function Prepare(t: Terms, b: Book, p: NewOrderParams, sequence: nat): Result<EngineOrder>
    requires TermsOk(t) && ValidOrder(p)
  {
    if p.orderType.Market? then PrepareMarket(t, p, sequence)
    else if p.side == Buy then PrepareLimitBuy(t, b, p, sequence)
    else PrepareLimitSell(t, b, p, sequence)
  }

  // ---------- After matching: the taker ----------

  /** A posted order is listed on its owner's account. */
  function ListPosted(a: VAccount, mid: MarketId, o: EngineOrder, pl: Placement, cap: nat, now: nat): Result<VAccount> {
    if pl.openQty > 0 then SaveNewOrderInfo(a, mid, pl.id, OrderInfo(o.maxQty, now), cap) else Ok(a)
  }

  ghost function SettleLimitBuy(t: Terms, mid: MarketId, p: NewOrderParams, o: EngineOrder, pl: Placement, tr: Trade,
                                taker: VAccount, now: nat): Result<VAccount>
    requires TermsOk(t)
  {
    var maxDebit :- MaxBidDebit(t, p);
    var limit :- Expect(p.limitPrice, MissingLimitPrice);
    var bought :- Deposit(taker, t.baseToken, tr.base);
    var locked :- CheckedLock(t.lots, limit, pl.openQty);
    var spent :- U128(locked + tr.quote);
    var debit :- U128(spent + tr.fee);
    :- Need(debit <= maxDebit, Overspent);
    var paid :- Withdraw(bought, t.quoteToken, debit);
    var listed :- ListPosted(paid, mid, o, pl, t.maxOrders, now);
    var _ :- ToNative(pl.openQty, t.lots.base);
    Ok(listed)
  }

  ghost function SettleLimitSell(t: Terms, mid: MarketId, p: NewOrderParams, o: EngineOrder, pl: Placement, tr: Trade,
                                 taker: VAccount, now: nat): Result<VAccount> {
    var proceeds :- Minus(tr.quote, tr.fee);
    var credited :- Deposit(taker, t.quoteToken, proceeds);
    var locked :- ToNative(pl.openQty, t.lots.base);
    var debit :- U128(tr.base + locked);
    :- Need(debit <= p.quantity, Oversold);
    var paid :- Withdraw(credited, t.baseToken, debit);
    ListPosted(paid, mid, o, pl, t.maxOrders, now)
  }

  ghost function SettleMarket(t: Terms, p: NewOrderParams, tr: Trade, taker: VAccount): Result<VAccount> {
    if p.side == Buy then
      var debit :- U128(tr.quote + tr.fee);
      :- Need(p.maxSpend.Some? ==> debit <= p.maxSpend.value, Overspent);
      var paid :- Withdraw(taker, t.quoteToken, debit);
      Deposit(paid, t.baseToken, tr.base)
    else
      var proceeds :- Minus(tr.quote, tr.fee);
      var paid :- Withdraw(taker, t.baseToken, tr.base);
      Deposit(paid, t.quoteToken, proceeds)
  }

  ghost function SettleTaker(t: Terms, mid: MarketId, p: NewOrderParams, o: EngineOrder, pl: Placement, tr: Trade,
                             taker: VAccount, now: nat): Result<VAccount>
    requires TermsOk(t)
  {
    if p.orderType.Market? then SettleMarket(t, p, tr, taker)
    else if p.side == Buy then SettleLimitBuy(t, mid, p, o, pl, tr, taker, now)
    else SettleLimitSell(t, mid, p, o, pl, tr, taker, now)
  }

  /** What goes into escrow for the resting part: a bid at the raw limit price, an ask in base. */
  function LockedFor(t: Terms, side: Side, limit: Option<nat>, openQty: nat): nat
    requires TermsOk(t)
  {
    if openQty == 0 || limit.None? then 0
    else if side == Buy then LockAt(t.lots, limit.value, openQty)
    else openQty * t.lots.base
  }

  /** The taker's side of the ledger: what a trade and its resting part change in a token. */
  function TakerNet(t: Terms, side: Side, limit: Option<nat>, openQty: nat, tr: Trade, token: Token): int
    requires TermsOk(t)
  {
    var locked := LockedFor(t, side, limit, openQty);
    if side == Buy then
      (if token == t.baseToken then tr.base else 0) - (if token == t.quoteToken then tr.quote + tr.fee + locked else 0)
    else
      (if token == t.quoteToken then tr.quote - tr.fee else 0) - (if token == t.baseToken then tr.base + locked else 0)
  }

  /** The account a taker ends with: its ledger entry, and the posted order on its list. */
  ghost predicate TakerBecomes(t: Terms, mid: MarketId, p: NewOrderParams, o: EngineOrder, pl: Placement, tr: Trade,
                               before: VAccount, after: VAccount, now: nat, token: Token)
    requires TermsOk(t)
  {
    && Balance(after, token) == Balance(before, token) + TakerNet(t, p.side, p.limitPrice, pl.openQty, tr, token)
    && after.storageBalance == before.storageBalance
    && ListPosted(before, mid, o, pl, t.maxOrders, now).Ok?
    && after.openOrders == ListPosted(before, mid, o, pl, t.maxOrders, now).value.openOrders
  }

  lemma ListPostedEffect(a: VAccount, b: VAccount, mid: MarketId, o: EngineOrder, pl: Placement, cap: nat, now: nat, token: Token)
    requires a.openOrders == b.openOrders
    requires ListPosted(b, mid, o, pl, cap, now).Ok?
    ensures var c := ListPosted(b, mid, o, pl, cap, now).value;
      && c.balances == b.balances && c.storageBalance == b.storageBalance
      && Balance(c, token) == Balance(b, token)
      && ListPosted(a, mid, o, pl, cap, now).Ok?
      && c.openOrders == ListPosted(a, mid, o, pl, cap, now).value.openOrders
  {
  }

  lemma BuyerEffect(t: Terms, mid: MarketId, p: NewOrderParams, o: EngineOrder, pl: Placement, tr: Trade,
                    taker: VAccount, now: nat, token: Token)
    requires TermsOk(t)
    requires p.side == Buy
    requires SettleLimitBuy(t, mid, p, o, pl, tr, taker, now).Ok?
    ensures TakerBecomes(t, mid, p, o, pl, tr, taker, SettleLimitBuy(t, mid, p, o, pl, tr, taker, now).value, now, token)
  {
    hide LockAt, Deposit, Withdraw, Balance, ListPosted, MaxBidDebit;
    var bought := Deposit(taker, t.baseToken, tr.base).value;
    var debit := LockAt(t.lots, p.limitPrice.value, pl.openQty) + tr.quote + tr.fee;
    var paid := Withdraw(bought, t.quoteToken, debit).value;
    DepositEffect(taker, t.baseToken, tr.base, token);
    WithdrawEffect(bought, t.quoteToken, debit, token);
    ListPostedEffect(taker, paid, mid, o, pl, t.maxOrders, now, token);
    LockOfNothing(t.lots, p.limitPrice.value);
  }

  lemma SellerEffect(t: Terms, mid: MarketId, p: NewOrderParams, o: EngineOrder, pl: Placement, tr: Trade,
                     taker: VAccount, now: nat, token: Token)
    requires TermsOk(t)
    requires p.side == Sell && p.limitPrice.Some?
    requires SettleLimitSell(t, mid, p, o, pl, tr, taker, now).Ok?
    ensures TakerBecomes(t, mid, p, o, pl, tr, taker, SettleLimitSell(t, mid, p, o, pl, tr, taker, now).value, now, token)
  {
    hide Deposit, Withdraw, Balance, ListPosted;
    var credited := Deposit(taker, t.quoteToken, tr.quote - tr.fee).value;
    var debit := tr.base + pl.openQty * t.lots.base;
    var paid := Withdraw(credited, t.baseToken, debit).value;
    DepositEffect(taker, t.quoteToken, tr.quote - tr.fee, token);
    WithdrawEffect(credited, t.baseToken, debit, token);
    ListPostedEffect(taker, paid, mid, o, pl, t.maxOrders, now, token);
  }

  lemma MarketEffect(t: Terms, mid: MarketId, p: NewOrderParams, o: EngineOrder, pl: Placement, tr: Trade,
                     taker: VAccount, now: nat, token: Token)
    requires TermsOk(t)
    requires pl.openQty == 0
    requires SettleMarket(t, p, tr, taker).Ok?
    ensures TakerBecomes(t, mid, p, o, pl, tr, taker, SettleMarket(t, p, tr, taker).value, now, token)
  {
    hide Deposit, Withdraw, Balance;
    if p.side == Buy {
      var paid := Withdraw(taker, t.quoteToken, tr.quote + tr.fee).value;
      WithdrawEffect(taker, t.quoteToken, tr.quote + tr.fee, token);
      DepositEffect(paid, t.baseToken, tr.base, token);
    } else {
      var paid := Withdraw(taker, t.baseToken, tr.base).value;
      WithdrawEffect(taker, t.baseToken, tr.base, token);
      DepositEffect(paid, t.quoteToken, tr.quote - tr.fee, token);
    }
  }

  lemma TakerEffect(t: Terms, b: Book, mid: MarketId, caller: AccountId, p: NewOrderParams, o: EngineOrder, pl: Placement, tr: Trade,
                    taker: VAccount, now: nat, token: Token)
    requires TermsOk(t) && ValidOrder(p)
    requires Prepare(t, b, p, o.sequence) == Ok(o)
    requires EngineOk(t.lots, b, caller, o, pl)
    requires SettleTaker(t, mid, p, o, pl, tr, taker, now).Ok?
    ensures TakerBecomes(t, mid, p, o, pl, tr, taker, SettleTaker(t, mid, p, o, pl, tr, taker, now).value, now, token)
  {
    PreparedOrder(t, b, p, o);
    hide SettleMarket, SettleLimitBuy, SettleLimitSell, Prepare, TakerBecomes;
    if p.orderType.Market? {
      MarketEffect(t, mid, p, o, pl, tr, taker, now, token);
    } else if p.side == Buy {
      BuyerEffect(t, mid, p, o, pl, tr, taker, now, token);
    } else {
      SellerEffect(t, mid, p, o, pl, tr, taker, now, token);
    }
  }

  lemma PreparedSequence(t: Terms, b: Book, p: NewOrderParams, sequence: nat)
    requires ValidOrder(p)
    requires Prepare(t, b, p, sequence).Ok?
    ensures Prepare(t, b, p, sequence).value.sequence == sequence
  {
  }

  /** What every prepared order carries over from the request. */
  lemma PreparedOrder(t: Terms, b: Book, p: NewOrderParams, o: EngineOrder)
    requires TermsOk(t) && ValidOrder(p)
    requires Prepare(t, b, p, o.sequence) == Ok(o)
    ensures o.side == p.side && o.orderType == p.orderType
    ensures o.availableQuote.Some? ==> o.availableQuote.value < TWO_64
    ensures if p.orderType.Market? then o.limitPrice.None?
      else p.limitPrice.Some? && o.limitPrice == Some(ToLots(p.limitPrice.value, t.lots.quote))
    ensures o.maxQty <= ToLots(p.quantity, t.lots.base)
    ensures p.side == Sell || p.orderType.Market? ==> o.maxQty == ToLots(p.quantity, t.lots.base)
    ensures o.availableQuote.Some? <==> p.side == Buy
  {
    hide QtyFor;
  }

  // ---------- No bid overspends, no ask oversells ----------

  /** Fills within the limit cost no more than their quantity at the raw limit price, rounded once. */
  lemma {:induction false} FillsWithinLimit(lots: Lots, taker: AccountId, limit: nat, price: nat, os: seq<Order>, fills: seq<Fill>)
    requires lots.denomination > 0
    requires price * lots.quote <= limit
    requires FillsOk(lots, taker, Buy, Some(price), os, fills)
    ensures TotalQuote(fills) <= LockAt(lots, limit, TotalQty(fills))
  {
    if fills != [] {
      var f := Last(fills);
      FillsWithinLimit(lots, taker, limit, price, os, Init(fills));
      MulMonotone(f.price, price, lots.quote);
      LockCoversValue(lots, limit, f.price, f.qty);
      LockSplit(lots, limit, TotalQty(Init(fills)), f.qty);
    }
  }

  /** The two divisions cut a quantity exactly where its value at the limit, unrounded, passes the budget. */
  lemma AffordableExactly(lots: Lots, limit: nat, budget: nat, qty: nat)
    requires lots.denomination > 0 && lots.base > 0 && limit > 0
    ensures qty <= QtyFor(lots, budget, limit) <==> qty * lots.base * limit <= budget * lots.denomination
  {
    FloorReaches(budget * lots.denomination / limit, lots.base, qty);
    FloorReaches(budget * lots.denomination, limit, qty * lots.base);
  }

  /** A quantity cut down to what a budget affords is worth no more than the budget. */
  lemma AffordableQty(lots: Lots, limit: nat, budget: nat, qty: nat)
    requires lots.denomination > 0 && lots.base > 0 && limit > 0
    requires qty <= QtyFor(lots, budget, limit)
    ensures LockAt(lots, limit, qty) <= budget
  {
    AffordableExactly(lots, limit, budget, qty);
    FloorBelow(qty * lots.base * limit, budget, lots.denomination);
  }

  /**
   * A limit buy never overspends: what is locked, what is traded and the taker fee stay within the
   * spending limit, for every input that reaches the assertion.
   */
  lemma LimitBuyNeverOverspends(t: Terms, b: Book, taker: AccountId, p: NewOrderParams, o: EngineOrder, pl: Placement)
    requires TermsOk(t) && ValidOrder(p)
    requires p.side == Buy
    requires PrepareLimitBuy(t, b, p, o.sequence) == Ok(o)
    requires EngineOk(t.lots, b, taker, o, pl)
    ensures LockedFor(t, Buy, p.limitPrice, pl.openQty) + TotalQuote(pl.fills) + FeeOn(t.takerRate, TotalQuote(pl.fills))
         <= MaxBidDebit(t, p).value
  {
    var lots, limit := t.lots, p.limitPrice.value;
    var maxDebit := MaxBidDebit(t, p).value;
    var withheld := Withhold(t.takerRate, maxDebit).value;
    var budget := ToLots(withheld, lots.quote) * lots.quote;
    var traded := TotalQuote(pl.fills);
    var locked := LockedFor(t, Buy, p.limitPrice, pl.openQty);
    hide LockAt, QtyFor, ToLots, FeeOn;
    LotsWithin(withheld, lots.quote);
    LotsWithin(limit, lots.quote);
    FillsWithinLimit(lots, taker, limit, o.limitPrice.value, Resting(b, Sell), pl.fills);
    AffordableQty(lots, limit, budget, o.maxQty);
    LockSplit(lots, limit, TotalQty(pl.fills), pl.openQty);
    LockMonotone(lots, limit, TotalQty(pl.fills) + pl.openQty, o.maxQty);
    LockOfNothing(lots, limit);
    WithholdingSuffices(t.takerRate, maxDebit, traded + locked);
    FeeMonotone(t.takerRate, t.takerRate, traded, traded + locked);
  }

  /** An order of any type never trades and rests more base than it asks for; a sell never oversells. */
  lemma NeverMoreThanAsked(t: Terms, b: Book, taker: AccountId, o: EngineOrder, pl: Placement, quantity: nat)
    requires TermsOk(t)
    requires o.maxQty <= ToLots(quantity, t.lots.base)
    requires EngineOk(t.lots, b, taker, o, pl)
    ensures (TotalQty(pl.fills) + pl.openQty) * t.lots.base <= quantity
  {
    hide ToLots, FillsOk, TotalQty, TotalQuote;
    LotsWithin(quantity, t.lots.base);
    MulMonotone(TotalQty(pl.fills) + pl.openQty, ToLots(quantity, t.lots.base), t.lots.base);
  }

  /** A market buy with a spending limit stays within it, fee included. */
  lemma MarketBuyWithinSpend(t: Terms, b: Book, taker: AccountId, o: EngineOrder, pl: Placement, maxSpend: nat)
    requires TermsOk(t)
    requires Withhold(t.takerRate, maxSpend).Ok?
    requires o.availableQuote == Some(ToLots(Withhold(t.takerRate, maxSpend).value, t.lots.quote))
    requires EngineOk(t.lots, b, taker, o, pl)
    ensures TotalQuote(pl.fills) + FeeOn(t.takerRate, TotalQuote(pl.fills)) <= maxSpend
  {
    LotsWithin(Withhold(t.takerRate, maxSpend).value, t.lots.quote);
    WithholdingSuffices(t.takerRate, maxSpend, TotalQuote(pl.fills));
  }

  lemma BuyerNeverBugs(t: Terms, mid: MarketId, p: NewOrderParams, o: EngineOrder, pl: Placement, tr: Trade, taker: VAccount, now: nat)
    requires TermsOk(t)
    requires p.limitPrice.Some? && MaxBidDebit(t, p).Ok?
    requires LockAt(t.lots, p.limitPrice.value, pl.openQty) + tr.quote + tr.fee <= MaxBidDebit(t, p).value
    ensures var r := SettleLimitBuy(t, mid, p, o, pl, tr, taker, now); r.Err? ==> !IsBug(r.error)
  {
    hide LockAt, MaxBidDebit;
  }

  lemma SellerNeverBugs(t: Terms, mid: MarketId, p: NewOrderParams, o: EngineOrder, pl: Placement, tr: Trade, taker: VAccount, now: nat)
    requires tr.fee <= tr.quote
    requires tr.base + pl.openQty * t.lots.base <= p.quantity
    ensures var r := SettleLimitSell(t, mid, p, o, pl, tr, taker, now); r.Err? ==> !IsBug(r.error)
  {
  }

  /** None of the taker phase's assertions or subtractions can fail. */
  lemma TakerNeverBugs(t: Terms, b: Book, mid: MarketId, caller: AccountId, p: NewOrderParams, o: EngineOrder, pl: Placement, tr: Trade,
                       taker: VAccount, now: nat)
    requires TermsOk(t) && ValidOrder(p)
    requires Prepare(t, b, p, o.sequence) == Ok(o)
    requires EngineOk(t.lots, b, caller, o, pl)
    requires tr.quote == TotalQuote(pl.fills)
    requires tr.base == TotalQty(pl.fills) * t.lots.base
    requires tr.fee == FeeOn(t.takerRate, tr.quote)
    ensures var r := SettleTaker(t, mid, p, o, pl, tr, taker, now); r.Err? ==> !IsBug(r.error)
  {
    FeeWithin(t.takerRate, tr.quote);
    PreparedOrder(t, b, p, o);
    if p.side == Sell {
      NeverMoreThanAsked(t, b, caller, o, pl, p.quantity);
      Distribute(TotalQty(pl.fills), pl.openQty, t.lots.base);
      SellerNeverBugs(t, mid, p, o, pl, tr, taker, now);
    } else if p.orderType.Market? {
      if p.maxSpend.Some? {
        MarketBuyWithinSpend(t, b, caller, o, pl, p.maxSpend.value);
      }
    } else {
      LimitBuyNeverOverspends(t, b, caller, p, o, pl);
      LockOfNothing(t.lots, p.limitPrice.value);
      BuyerNeverBugs(t, mid, p, o, pl, tr, taker, now);
    }
  }
}

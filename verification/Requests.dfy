/** What orders and swaps ask of the engine, in terms of what the caller asked for, and what they may cost. */
module Requests {
  import opened Arithmetic
  import opened Exchange
  import opened Fees
  import opened Ledger
  import opened MatchingEngine
  import opened OrderBook
  import opened Orders
  import opened Outcomes
  import opened Protocols
  import opened Settlement
  import opened Solvency
  import opened StoredAccount
  import opened StoredMarket
  import opened Types

  lemma LotsReach(amount: nat, lotSize: nat, k: nat)
    requires lotSize > 0
    requires amount / lotSize < TWO_64
    ensures k <= ToLots(amount, lotSize) <==> k * lotSize <= amount
  {
    LotsUncut(amount, lotSize);
    hide ToLots;
    FloorReaches(amount, lotSize, k);
  }

  /** The budget of a bid, in whole lots: all that the withheld fee leaves of the cap, and no more. */
  lemma BudgetIsTight(t: Terms, cap: nat)
    requires Withhold(t.takerRate, cap).Ok?
    requires (cap - FeeOn(t.takerRate, cap)) / t.lots.quote < TWO_64
    ensures WholeLots(cap - FeeOn(t.takerRate, cap), ToLots(Withhold(t.takerRate, cap).value, t.lots.quote), t.lots.quote)
  {
    hide Withhold, ToLots, FeeOn;
    WithholdExactly(t.takerRate, cap);
    LotsExactly(cap - FeeOn(t.takerRate, cap), t.lots.quote);
  }

  /**
   * The budget of a limit buy is what the fee leaves of the spending limit, or of price times quantity
   * without one, in whole lots; its price is the limit price in whole lots. Both are for counts that fit the
   * 64 bits of a lot.
   */
  lemma LimitBuyBudget(t: Terms, b: Book, p: NewOrderParams, sequence: nat, o: EngineOrder)
    requires ValidOrder(p) && p.side == Buy && !p.orderType.Market?
    requires Prepare(t, b, p, sequence) == Ok(o)
    ensures p.limitPrice.Some? && o.limitPrice.Some? && o.availableQuote.Some? && o.availableQuote.value > 0
    ensures o.sequence == sequence && o.side == Buy && o.orderType == p.orderType
    ensures var limit := p.limitPrice.value;
      var cap := if p.maxSpend.Some? then p.maxSpend.value else p.quantity * limit / t.lots.denomination;
      && FeeOn(t.takerRate, cap) <= cap
      && ((cap - FeeOn(t.takerRate, cap)) / t.lots.quote < TWO_64 ==>
            WholeLots(cap - FeeOn(t.takerRate, cap), o.availableQuote.value, t.lots.quote))
      && (limit / t.lots.quote < TWO_64 ==> WholeLots(limit, o.limitPrice.value, t.lots.quote))
  {
    hide FeeOn, Withhold, Prepare, QtyFor, ToLots, WholeLots;
    PreparedLimitBuy(t, b, p, sequence, o);
    var limit := p.limitPrice.value;
    var cap := if p.maxSpend.Some? then p.maxSpend.value else p.quantity * limit / t.lots.denomination;
    PreparedBudget(t, b, p, sequence, o, cap);
    FeeWithin(t.takerRate, cap);
    if (cap - FeeOn(t.takerRate, cap)) / t.lots.quote < TWO_64 {
      BudgetIsTight(t, cap);
    }
    if limit / t.lots.quote < TWO_64 {
      LotsExactly(limit, t.lots.quote);
    }
  }

  /** A limit buy asks for the largest quantity that the request allows and its budget pays for at the limit price. */
  lemma LimitBuyQuantity(t: Terms, b: Book, p: NewOrderParams, sequence: nat, o: EngineOrder, k: nat)
    requires ValidOrder(p) && p.side == Buy && !p.orderType.Market?
    requires Prepare(t, b, p, sequence) == Ok(o)
    requires p.quantity / t.lots.base < TWO_64
    ensures p.limitPrice.Some? && o.availableQuote.Some?
    ensures k <= o.maxQty <==>
      && k * t.lots.base <= p.quantity
      && k * t.lots.base * p.limitPrice.value <= o.availableQuote.value * t.lots.quote * t.lots.denomination
  {
    hide Prepare, QtyFor, ToLots, Withhold;
    PreparedLimitBuy(t, b, p, sequence, o);
    PreparedBudget(t, b, p, sequence, o,
                   if p.maxSpend.Some? then p.maxSpend.value else p.quantity * p.limitPrice.value / t.lots.denomination);
    LotsReach(p.quantity, t.lots.base, k);
    AffordableExactly(t.lots, p.limitPrice.value, o.availableQuote.value * t.lots.quote, k);
  }

  lemma PreparedLimitBuy(t: Terms, b: Book, p: NewOrderParams, sequence: nat, o: EngineOrder)
    requires ValidOrder(p) && p.side == Buy && !p.orderType.Market?
    requires Prepare(t, b, p, sequence) == Ok(o)
    ensures p.limitPrice.Some? && o.limitPrice.Some? && o.availableQuote.Some?
    ensures o.sequence == sequence && o.side == Buy && o.orderType == p.orderType
    ensures MaxBidDebit(t, p) == Ok(if p.maxSpend.Some? then p.maxSpend.value else p.quantity * p.limitPrice.value / t.lots.denomination)
  {
    hide Withhold, BidWindow, QtyFor, ToLots;
  }

  lemma PreparedBudget(t: Terms, b: Book, p: NewOrderParams, sequence: nat, o: EngineOrder, cap: nat)
    requires ValidOrder(p) && p.side == Buy && !p.orderType.Market?
    requires Prepare(t, b, p, sequence) == Ok(o)
    requires p.limitPrice.Some? ==> cap == if p.maxSpend.Some? then p.maxSpend.value else p.quantity * p.limitPrice.value / t.lots.denomination
    ensures p.limitPrice.Some? && o.availableQuote.Some? && Withhold(t.takerRate, cap).Ok?
    ensures o.sequence == sequence && o.side == Buy && o.orderType == p.orderType
    ensures o.limitPrice == Some(ToLots(p.limitPrice.value, t.lots.quote))
    ensures o.availableQuote.value == ToLots(Withhold(t.takerRate, cap).value, t.lots.quote) > 0
    ensures o.maxQty == Min(ToLots(p.quantity, t.lots.base), QtyFor(t.lots, o.availableQuote.value * t.lots.quote, p.limitPrice.value))
  {
    hide Withhold, BidWindow, QtyFor, ToLots;
  }

  /** A limit sell asks for its whole quantity in lots, at its price in lots, with no budget. */
  lemma LimitSellRequest(t: Terms, b: Book, p: NewOrderParams, sequence: nat, o: EngineOrder)
    requires ValidOrder(p) && p.side == Sell && !p.orderType.Market?
    requires Prepare(t, b, p, sequence) == Ok(o)
    ensures p.limitPrice.Some? && o.limitPrice.Some? && o.availableQuote.None?
    ensures o.sequence == sequence && o.side == Sell && o.orderType == p.orderType
    ensures p.limitPrice.value / t.lots.quote < TWO_64 ==> WholeLots(p.limitPrice.value, o.limitPrice.value, t.lots.quote)
    ensures p.quantity / t.lots.base < TWO_64 ==> WholeLots(p.quantity, o.maxQty, t.lots.base)
  {
    hide AskWindow, ToLots, WholeLots;
    if p.limitPrice.value / t.lots.quote < TWO_64 {
      LotsExactly(p.limitPrice.value, t.lots.quote);
    }
    if p.quantity / t.lots.base < TWO_64 {
      LotsExactly(p.quantity, t.lots.base);
    }
  }

  /**
   * A market order asks for its whole quantity in lots at any price; a buy with a spending limit has what
   * the fee leaves of it for a budget, and one without has no budget short of the largest.
   */
  lemma MarketRequest(t: Terms, b: Book, p: NewOrderParams, sequence: nat, o: EngineOrder)
    requires ValidOrder(p) && p.orderType.Market?
    requires Prepare(t, b, p, sequence) == Ok(o)
    ensures o.sequence == sequence && o.side == p.side && o.orderType.Market? && o.limitPrice.None? && o.maxQty > 0
    ensures p.quantity / t.lots.base < TWO_64 ==> WholeLots(p.quantity, o.maxQty, t.lots.base)
    ensures p.side == Sell ==> o.availableQuote.None?
    ensures p.side == Buy && p.maxSpend.None? ==> o.availableQuote == Some(0xFFFF_FFFF_FFFF_FFFF)
    ensures p.side == Buy && p.maxSpend.Some? ==>
      var cap := p.maxSpend.value;
      && o.availableQuote.Some?
      && FeeOn(t.takerRate, cap) <= cap
      && ((cap - FeeOn(t.takerRate, cap)) / t.lots.quote < TWO_64 ==>
            WholeLots(cap - FeeOn(t.takerRate, cap), o.availableQuote.value, t.lots.quote))
  {
    hide FeeOn, Withhold, ToLots, WholeLots;
    if p.quantity / t.lots.base < TWO_64 {
      LotsExactly(p.quantity, t.lots.base);
    }
    if p.side == Buy && p.maxSpend.Some? {
      var cap := p.maxSpend.value;
      FeeWithin(t.takerRate, cap);
      if (cap - FeeOn(t.takerRate, cap)) / t.lots.quote < TWO_64 {
        BudgetIsTight(t, cap);
      }
    }
  }

  /**
   * A swap hop offers its whole input: on the sell side the amount in lots, on the buy side what the fee
   * leaves of the amount for a budget, against as many lots as the largest amount makes.
   */
  lemma SwapRequest(t: Terms, side: Side, amount: nat, sequence: nat, o: EngineOrder)
    requires SwapOrder(t, side, amount, sequence) == Ok(o)
    ensures o.sequence == sequence && o.side == side && o.orderType.Market? && o.limitPrice.None?
    ensures side == Sell ==>
      && o.availableQuote.None?
      && (amount / t.lots.base < TWO_64 ==> WholeLots(amount, o.maxQty, t.lots.base))
    ensures side == Buy ==>
      && o.availableQuote.Some?
      && o.maxQty == (0xFFFF_FFFF_FFFF_FFFF_FFFF_FFFF_FFFF_FFFF / t.lots.base) % 0x1_0000_0000_0000_0000
      && FeeOn(t.takerRate, amount) <= amount
      && ((amount - FeeOn(t.takerRate, amount)) / t.lots.quote < TWO_64 ==>
            WholeLots(amount - FeeOn(t.takerRate, amount), o.availableQuote.value, t.lots.quote))
  {
    hide FeeOn, Withhold, WholeLots;
    if side == Sell {
      if amount / t.lots.base < TWO_64 {
        LotsExactly(amount, t.lots.base);
      }
    } else {
      FeeWithin(t.takerRate, amount);
      if (amount - FeeOn(t.takerRate, amount)) / t.lots.quote < TWO_64 {
        BudgetIsTight(t, amount);
      }
    }
  }

  // ---------- When an order goes through ----------

  /** The limit price can be compared with the best order of its own side, and is inside the window around it. */
  predicate InsideWindow(t: Terms, b: Book, p: NewOrderParams) {
    Resting(b, p.side) == []
    || (Comparable(t, p.limitPrice, Resting(b, p.side)[0]) && !OutsideWindow(t, b, p))
  }

  /** The budget that a cap leaves, in lots as the code counts them. */
  function BudgetLots(t: Terms, cap: nat): nat {
    if FeeOn(t.takerRate, cap) <= cap then (cap - FeeOn(t.takerRate, cap)) / t.lots.quote % TWO_64 else 0
  }

  lemma WithholdSucceedsExactly(t: Terms, cap: nat)
    ensures Withhold(t.takerRate, cap).Ok? <==> cap * t.takerRate < TWO_128
    ensures Withhold(t.takerRate, cap).Ok? ==> ToLots(Withhold(t.takerRate, cap).value, t.lots.quote) == BudgetLots(t, cap)
  {
    FeeWithin(t.takerRate, cap);
    hide FeeOn;
  }

  /** A limit sell reaches the engine exactly when it names a price inside the window. */
  lemma LimitSellPreparesExactly(t: Terms, b: Book, p: NewOrderParams, sequence: nat)
    requires ValidOrder(p) && p.side == Sell && !p.orderType.Market?
    ensures Prepare(t, b, p, sequence).Ok? <==> p.limitPrice.Some? && InsideWindow(t, b, p)
  {
    hide PriceRatio, ToLots;
    PrepareKeepsWindow(t, b, p, sequence);
    if b.asks != [] {
      RatioCompares(t, p.limitPrice, b.asks[0]);
    }
  }

  /**
   * A limit buy reaches the engine exactly when it names a price inside the window, its cap and the fee on it
   * can be computed, the budget makes at least one lot, and the lots it pays for fit 64 bits.
   */
  lemma LimitBuyPreparesExactly(t: Terms, b: Book, p: NewOrderParams, sequence: nat)
    requires ValidOrder(p) && p.side == Buy && !p.orderType.Market?
    ensures Prepare(t, b, p, sequence).Ok? <==>
      && p.limitPrice.Some? && InsideWindow(t, b, p)
      && var limit := p.limitPrice.value;
         var cap := if p.maxSpend.Some? then p.maxSpend.value else p.quantity * limit / t.lots.denomination;
         && (p.maxSpend.None? ==> cap < TWO_128)
         && cap * t.takerRate < TWO_128
         && 0 < BudgetLots(t, cap) * t.lots.quote < TWO_128
         && QtyFor(t.lots, BudgetLots(t, cap) * t.lots.quote, limit) < TWO_64
  {
    hide Prepare, BidWindow, MaxBidDebit, ToLots, Withhold, QtyFor, BudgetLots, InsideWindow, Comparable;
    LimitBuyUnfolds(t, b, p, sequence);
    BidWindowInside(t, b, p);
    if p.limitPrice.Some? {
      var cap := if p.maxSpend.Some? then p.maxSpend.value else p.quantity * p.limitPrice.value / t.lots.denomination;
      DebitSucceedsExactly(t, p);
      if MaxBidDebit(t, p).Ok? {
        WithholdSucceedsExactly(t, cap);
        PositiveProduct(BudgetLots(t, cap), t.lots.quote);
      }
    }
  }

  lemma LimitBuyUnfolds(t: Terms, b: Book, p: NewOrderParams, sequence: nat)
    requires ValidOrder(p) && p.side == Buy && !p.orderType.Market?
    ensures Prepare(t, b, p, sequence).Ok? <==>
      && p.limitPrice.Some? && BidWindow(t, b, p).Ok?
      && MaxBidDebit(t, p).Ok?
      && var withheld := Withhold(t.takerRate, MaxBidDebit(t, p).value);
         && withheld.Ok?
         && var available := ToLots(withheld.value, t.lots.quote);
            && available != 0
            && available * t.lots.quote < TWO_128
            && QtyFor(t.lots, available * t.lots.quote, p.limitPrice.value) < TWO_64
  {
    hide BidWindow, MaxBidDebit, Withhold, ToLots, QtyFor;
  }

  lemma DebitSucceedsExactly(t: Terms, p: NewOrderParams)
    requires p.limitPrice.Some?
    ensures var cap := if p.maxSpend.Some? then p.maxSpend.value else p.quantity * p.limitPrice.value / t.lots.denomination;
      && (MaxBidDebit(t, p).Ok? <==> (p.maxSpend.None? ==> cap < TWO_128))
      && (MaxBidDebit(t, p).Ok? ==> MaxBidDebit(t, p).value == cap)
  {
  }

  lemma BidWindowInside(t: Terms, b: Book, p: NewOrderParams)
    requires p.side == Buy && !p.orderType.Market?
    ensures BidWindow(t, b, p).Ok? <==> InsideWindow(t, b, p)
  {
    if b.bids != [] {
      BidWindowIs(t, b, p);
    }
    hide BidWindow, Comparable;
  }

  lemma PositiveProduct(x: nat, y: nat)
    requires y > 0
    ensures x * y > 0 <==> x > 0
  {
    if x > 0 {
      MulMonotone(1, x, y);
    }
  }

  /** A market order reaches the engine exactly when it asks for at least one lot and the fee on its limit can be computed. */
  lemma MarketPreparesExactly(t: Terms, b: Book, p: NewOrderParams, sequence: nat)
    requires ValidOrder(p) && p.orderType.Market?
    ensures Prepare(t, b, p, sequence).Ok? <==>
      && p.quantity / t.lots.base % TWO_64 > 0
      && (p.side == Buy && p.maxSpend.Some? ==> p.maxSpend.value * t.takerRate < TWO_128)
  {
    hide Withhold;
    if p.maxSpend.Some? {
      WithholdSucceedsExactly(t, p.maxSpend.value);
    }
  }

  /** There is room on the account's list for what is posted. */
  predicate HasRoom(a: VAccount, mid: MarketId, openQty: nat, cap: nat) {
    openQty > 0 && mid in a.openOrders ==> |a.openOrders[mid]| < cap
  }

  predicate CanPay(a: VAccount, t: Token, amount: nat) {
    t in a.balances && amount <= a.balances[t]
  }

  /** A buyer settles exactly when nothing overflows, its debit stays within the cap and its entry, and its list has room. */
  lemma BuyerSettlesExactly(t: Terms, mid: MarketId, p: NewOrderParams, o: EngineOrder, pl: Placement, tr: Trade, taker: VAccount, now: nat)
    requires t.baseToken != t.quoteToken
    requires p.limitPrice.Some?
    ensures SettleLimitBuy(t, mid, p, o, pl, tr, taker, now).Ok? <==>
      var limit := p.limitPrice.value;
      var cap := if p.maxSpend.Some? then p.maxSpend.value else p.quantity * limit / t.lots.denomination;
      var debit := LockAt(t.lots, limit, pl.openQty) + tr.quote + tr.fee;
      && (p.maxSpend.None? ==> cap < TWO_128)
      && Balance(taker, t.baseToken) + tr.base < TWO_128
      && pl.openQty * t.lots.base * limit < TWO_256
      && debit < TWO_128 && debit <= cap
      && CanPay(taker, t.quoteToken, debit)
      && pl.openQty * t.lots.base < TWO_128
      && HasRoom(taker, mid, pl.openQty, t.maxOrders)
  {
    hide LockAt;
  }

  lemma SellerSettlesExactly(t: Terms, mid: MarketId, p: NewOrderParams, o: EngineOrder, pl: Placement, tr: Trade, taker: VAccount, now: nat)
    requires t.baseToken != t.quoteToken
    ensures SettleLimitSell(t, mid, p, o, pl, tr, taker, now).Ok? <==>
      var debit := tr.base + pl.openQty * t.lots.base;
      && tr.fee <= tr.quote
      && Balance(taker, t.quoteToken) + (tr.quote - tr.fee) < TWO_128
      && debit < TWO_128 && debit <= p.quantity
      && CanPay(taker, t.baseToken, debit)
      && HasRoom(taker, mid, pl.openQty, t.maxOrders)
  {
  }

  lemma MarketTakerSettlesExactly(t: Terms, p: NewOrderParams, tr: Trade, taker: VAccount)
    requires t.baseToken != t.quoteToken
    ensures SettleMarket(t, p, tr, taker).Ok? <==>
      if p.side == Buy then
        && tr.quote + tr.fee < TWO_128
        && (p.maxSpend.Some? ==> tr.quote + tr.fee <= p.maxSpend.value)
        && CanPay(taker, t.quoteToken, tr.quote + tr.fee)
        && Balance(taker, t.baseToken) + tr.base < TWO_128
      else
        && tr.fee <= tr.quote
        && CanPay(taker, t.baseToken, tr.base)
        && Balance(taker, t.quoteToken) + (tr.quote - tr.fee) < TWO_128
  {
  }

  /** A trade settles exactly when every fill does, the fee covers the rebates, and the referrer's credit does not overflow. */
  lemma TradeSettlesExactly(z: Sizes, t: Terms, mid: MarketId, side: Side, accounts: Accounts, fills: seq<Fill>,
                            referrer: Option<AccountId>, feesAccrued: nat)
    ensures SettleTrade(z, t, mid, side, accounts, fills, referrer, feesAccrued).Ok? <==>
      var made := SettleMakers(z, t, mid, side, accounts, fills);
      && made.Ok?
      && var fee := FeeOn(t.takerRate, TotalQuote(fills));
         && TotalQuote(fills) * t.takerRate < TWO_128
         && made.value.rebate <= fee
         && (referrer.Some? && referrer.value in made.value.accounts ==>
               Balance(made.value.accounts[referrer.value], t.quoteToken) + (fee - made.value.rebate) < TWO_128)
  {
    hide Covered, SettleMakers, TotalQuote;
    if SettleMakers(z, t, mid, side, accounts, fills).Ok? {
      MakersAreFolded(z, t, mid, side, accounts, fills, AccountId(""), t.quoteToken);
    }
  }

  /**
   * An order goes through exactly when the call's guards hold, the request can be prepared, the engine answers
   * it, and makers and taker can settle with the fees and the taker's storage in bounds.
   */
  lemma OrderSucceedsExactly(z: Sizes, s: State, caller: AccountId, mid: MarketId, p: NewOrderParams, pl: Placement, now: nat)
    ensures NewOrder(z, s, caller, mid, p, Some(pl), now).Ok? <==>
      && s.mode.Active? && ValidOrder(p) && caller in s.accounts
      && mid in s.markets && s.markets[mid].state.Trading?
      && var m := s.markets[mid];
         var prepared := Prepare(m.terms, m.book, p, s.prevSequence + 1);
         && prepared.Ok? && EngineOk(m.terms.lots, m.book, caller, prepared.value, pl)
         && var trade := SettleTrade(z, m.terms, mid, p.side, s.accounts, pl.fills, p.referrer, m.feesAccrued);
            && trade.Ok? && trade.value.fees < TWO_128
            && var taker := SettleTaker(m.terms, mid, p, prepared.value, pl, trade.value, s.accounts[caller], now);
               taker.Ok? && Covered(z, taker.value)
  {
    hide EngineOk, SettleTrade, SettleTaker, Covered, NewBook, Prepare;
    if ValidOrder(p) && mid in s.markets && Prepare(s.markets[mid].terms, s.markets[mid].book, p, s.prevSequence + 1).Ok? {
      var m := s.markets[mid];
      PreparedSequence(m.terms, m.book, p, s.prevSequence + 1);
      PreparedOrder(m.terms, m.book, p, Prepare(m.terms, m.book, p, s.prevSequence + 1).value);
    }
  }

  /** Which failure is reported: a limit order's fees overflow before its taker settles, a market order's after. */
  lemma FeesAccrueInOrder(z: Sizes, accounts: Accounts, m: VMarket, sequence: nat, caller: AccountId, mid: MarketId, p: NewOrderParams,
                          pl: Placement, now: nat, taker: VAccount, o: EngineOrder, tr: Trade)
    requires ValidOrder(p)
    requires Prepare(m.terms, m.book, p, sequence) == Ok(o) && EngineOk(m.terms.lots, m.book, caller, o, pl)
    requires SettleTrade(z, m.terms, mid, o.side, accounts, pl.fills, p.referrer, m.feesAccrued) == Ok(tr)
    ensures var r := Place(z, accounts, m, sequence, caller, mid, p, Some(pl), now, taker);
      var settled := SettleTaker(m.terms, mid, p, o, pl, tr, taker, now);
      && (!p.orderType.Market? && tr.fees >= TWO_128 ==> r == Err(Overflow))
      && (p.orderType.Market? && settled.Err? ==> r == Err(settled.error))
      && (p.orderType.Market? && settled.Ok? && tr.fees >= TWO_128 ==> r == Err(Overflow))
  {
    hide Prepare, EngineOk, SettleTrade, SettleTaker, NewBook;
  }

  /**
   * A hop goes through exactly when its market trades the token in hand, the fee on the amount can be
   * computed, the engine answers, the makers settle with the fees in bounds, what comes out reaches the
   * minimum and what went in covers the trade.
   */
  lemma HopSucceedsExactly(z: Sizes, s: State, signer: AccountId, token: Token, amount: nat, h: Hop, pl: Placement)
    requires h.placed == Some(pl)
    ensures SwapHop(z, s, signer, token, amount, h).Ok? <==>
      && h.market in s.markets && s.markets[h.market].state.Trading?
      && var m := s.markets[h.market];
         && token == (if h.side == Buy then m.terms.quoteToken else m.terms.baseToken)
         && (h.side == Buy ==> amount * m.terms.takerRate < TWO_128)
         && var prepared := SwapOrder(m.terms, h.side, amount, s.prevSequence + 1);
            && prepared.Ok? && EngineOk(m.terms.lots, m.book, signer, prepared.value, pl)
            && var trade := SettleTrade(z, m.terms, h.market, h.side, s.accounts, pl.fills, h.referrer, m.feesAccrued);
               && trade.Ok? && trade.value.fees < TWO_128
               && var tr := trade.value;
                  && (if h.side == Buy then tr.quote + tr.fee <= amount else tr.fee <= tr.quote && tr.base <= amount)
                  && (h.minOutput.Some? ==> h.minOutput.value <= if h.side == Buy then tr.base else tr.quote - tr.fee)
  {
    hide EngineOk, SettleTrade, NewBook, Withhold;
    if h.market in s.markets {
      WithholdSucceedsExactly(s.markets[h.market].terms, amount);
    }
  }

  /** A chain goes on exactly when its next hop does, on what the hops before it produced. */
  lemma ChainSucceedsExactly(z: Sizes, s: State, signer: AccountId, token: Token, amount: nat, hops: seq<Hop>, h: Hop)
    ensures var before := SwapChain(z, s, signer, token, amount, hops);
      SwapChain(z, s, signer, token, amount, hops + [h]).Ok? <==>
        before.Ok? && SwapHop(z, before.value.state, signer, before.value.token, before.value.amount, h).Ok?
  {
    hide SwapHop;
    assert (hops + [h])[..|hops|] == hops;
  }

  /** A swap goes through exactly when it has hops, the last one names a minimum, and the chain completes. */
  lemma SwapsSucceedExactly(z: Sizes, s: State, signer: AccountId, sender: AccountId, token: Token, amount: nat, hops: seq<Hop>)
    ensures ExecuteSwaps(z, s, signer, sender, token, amount, hops).Ok? <==>
      && s.mode.Active? && hops != [] && hops[|hops| - 1].minOutput.Some?
      && SwapChain(z, AddHeld(s, token, amount), signer, token, amount, hops).Ok?
  {
    hide SwapChain;
  }

  // ---------- What an order may cost its caller ----------

  /** What a placed order takes of its caller: quote with the fee and the lock for a buy, base with the lock for a sell. */
  lemma LimitBuyKeepsCap(z: Sizes, s: State, caller: AccountId, mid: MarketId, p: NewOrderParams, placed: Option<Placement>, now: nat)
    requires NewOrder(z, s, caller, mid, p, placed, now).Ok?
    requires p.side == Buy && !p.orderType.Market?
    ensures mid in s.markets && placed.Some? && p.limitPrice.Some?
    ensures var t := s.markets[mid].terms;
      var cap := if p.maxSpend.Some? then p.maxSpend.value else p.quantity * p.limitPrice.value / t.lots.denomination;
      LockAt(t.lots, p.limitPrice.value, placed.value.openQty) + TotalQuote(placed.value.fills)
        + FeeOn(t.takerRate, TotalQuote(placed.value.fills)) <= cap
  {
    hide NewOrder, SettleTrade, SettleTaker, EngineOk, NewBook, Covered, LockAt, FeeOn, TotalQuote, PrepareLimitBuy, MaxBidDebit;
    var o, tr, taker := OrderUnfolds(z, s, caller, mid, p, placed, now);
    var m := s.markets[mid];
    PreparedLimitBuy(m.terms, m.book, p, o.sequence, o);
    LimitBuyNeverOverspends(m.terms, m.book, caller, p, o, placed.value);
    LockOfNothing(m.terms.lots, p.limitPrice.value);
  }

  /** Likewise for a market buy. */
  lemma MarketBuyKeepsCap(z: Sizes, s: State, caller: AccountId, mid: MarketId, p: NewOrderParams, placed: Option<Placement>, now: nat)
    requires NewOrder(z, s, caller, mid, p, placed, now).Ok?
    requires p.side == Buy && p.orderType.Market? && p.maxSpend.Some?
    ensures mid in s.markets && placed.Some? && placed.value.openQty == 0
    ensures TotalQuote(placed.value.fills) + FeeOn(s.markets[mid].terms.takerRate, TotalQuote(placed.value.fills)) <= p.maxSpend.value
  {
    hide NewOrder, SettleTrade, SettleTaker, FillsOk, NewBook, Covered, FeeOn, TotalQuote, Withhold, ToLots;
    var o, tr, taker := OrderUnfolds(z, s, caller, mid, p, placed, now);
    var m := s.markets[mid];
    MarketBuyWithinSpend(m.terms, m.book, caller, o, placed.value, p.maxSpend.value);
  }

  /**
   * No order takes more from its caller's balance than it was given leave to: a sell its quantity, a buy its
   * spending limit, or price times quantity for a limit buy without one.
   */
  lemma OrderKeepsCap(z: Sizes, s: State, caller: AccountId, mid: MarketId, p: NewOrderParams, placed: Option<Placement>, now: nat)
    requires NewOrder(z, s, caller, mid, p, placed, now).Ok?
    requires mid in s.markets && s.markets[mid].terms.baseToken != s.markets[mid].terms.quoteToken
    ensures var t := s.markets[mid].terms;
      var token := if p.side == Buy then t.quoteToken else t.baseToken;
      var taken := BalanceAt(s.accounts, caller, token) - BalanceAt(NewOrder(z, s, caller, mid, p, placed, now).value.accounts, caller, token);
      && 0 <= taken
      && (p.side == Sell ==> taken <= p.quantity)
      && (p.side == Buy && p.maxSpend.Some? ==> taken <= p.maxSpend.value)
      && (p.side == Buy && p.maxSpend.None? && !p.orderType.Market? ==>
            p.limitPrice.Some? && taken <= p.quantity * p.limitPrice.value / t.lots.denomination)
  {
    hide NewOrder, SettleTrade, SettleTaker, EngineOk, NewBook, Covered, FeeOn, TotalQuote, TotalQty, LockAt, Prepare, BalanceAt, Earned;
    var o, tr, taker := OrderUnfolds(z, s, caller, mid, p, placed, now);
    var m, pl := s.markets[mid], placed.value;
    var t := m.terms;
    var token := if p.side == Buy then t.quoteToken else t.baseToken;
    var after := NewOrder(z, s, caller, mid, p, placed, now).value;
    PreparedOrder(t, m.book, p, o);
    TwoPhaseLedger(z, s, caller, mid, p, pl, now, o, tr, taker, after, caller, token);
    CallerEarnsNothing(t, m.book, caller, o, pl, token);
    FeeSplitIsTotal(z, t, mid, o.side, s.accounts, pl.fills, p.referrer, m.feesAccrued);
    if p.side == Sell {
      NeverMoreThanAsked(t, m.book, caller, o, pl, p.quantity);
      Distribute(TotalQty(pl.fills), pl.openQty, t.lots.base);
    } else if !p.orderType.Market? {
      LimitBuyKeepsCap(z, s, caller, mid, p, placed, now);
      LockOfNothing(t.lots, p.limitPrice.value);
    } else if p.maxSpend.Some? {
      MarketBuyKeepsCap(z, s, caller, mid, p, placed, now);
    }
  }

  lemma CallerEarnsNothing(t: Terms, b: Book, caller: AccountId, o: EngineOrder, pl: Placement, token: Token)
    requires EngineOk(t.lots, b, caller, o, pl)
    ensures Earned(t, o.side, pl.fills, caller, token) == 0
  {
    hide FillsOk, Earned;
    TakerEarnsNothing(t, caller, o.side, o.limitPrice, Resting(b, Opposite(o.side)), pl.fills, token);
  }
}

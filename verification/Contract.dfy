/**
 * The contract object, method by method in the order of the source. Accounts and markets are loaded into
 * objects, changed in place and saved. Every public call is proved against the state machine: it takes
 * exactly the step, or fails with exactly the error and leaves everything as it was.
 */
module Contract {
  import opened Account
  import opened Arithmetic
  import opened Exchange
  import opened Fees
  import opened Ledger
  import opened Market
  import opened MatchingEngine
  import opened OrderBook
  import opened Orders
  import opened Outcomes
  import opened Settlement
  import opened StoredAccount
  import opened StoredMarket
  import opened Types

  datatype MakerSettlement = MakerSettlement(base: nat, quote: nat, rebate: nat)

  datatype TradeTotals = TradeTotals(base: nat, quote: nat, rebate: nat, fee: nat, referral: nat)

  datatype SwapAction = SwapAction(market: MarketId, side: Side, minOutput: Option<nat>, referrer: Option<AccountId>)

  datatype SwapResult = SwapResult(token: Token, output: nat, refund: nat)

  /** The swap actions together with the engine's answers. */
  ghost predicate Answers(hops: seq<Hop>, swaps: seq<SwapAction>) {
    && |hops| == |swaps|
    && forall k :: 0 <= k < |swaps| ==> IsHop(hops[k], swaps[k])
  }

  ghost predicate IsHop(h: Hop, a: SwapAction) {
    h.market == a.market && h.side == a.side && h.minOutput == a.minOutput && h.referrer == a.referrer
  }

  lemma {:induction false} FirstHopErrorWins(z: Sizes, s: State, signer: AccountId, token: Token, amount: nat, hops: seq<Hop>, k: nat)
    requires k <= |hops|
    requires SwapChain(z, s, signer, token, amount, hops[..k]).Err?
    ensures SwapChain(z, s, signer, token, amount, hops) == SwapChain(z, s, signer, token, amount, hops[..k])
    decreases |hops| - k
  {
    hide SwapHop;
    if k == |hops| {
      assert hops[..k] == hops;
    } else {
      assert hops[..k + 1][..k] == hops[..k];
      FirstHopErrorWins(z, s, signer, token, amount, hops, k + 1);
    }
  }

  lemma {:induction false} FirstRefundErrorWins(t: Terms, mid: MarketId, owner: AccountId, a: VAccount, pending: seq<Pending>, k: nat)
    requires k <= |pending|
    requires ProcessRefunds(t, mid, owner, a, pending[..k]).Err?
    ensures ProcessRefunds(t, mid, owner, a, pending) == ProcessRefunds(t, mid, owner, a, pending[..k])
    decreases |pending| - k
  {
    hide RefundOne;
    if k == |pending| {
      assert pending[..k] == pending;
    } else {
      assert pending[..k + 1][..k] == pending[..k];
      FirstRefundErrorWins(t, mid, owner, a, pending, k + 1);
    }
  }

  lemma {:induction false} FirstCancelErrorWins(z: Sizes, s: State, mid: MarketId, orders: seq<Order>, k: nat)
    requires k <= |orders|
    requires CancelEach(z, s, mid, orders[..k]).Err?
    ensures CancelEach(z, s, mid, orders) == CancelEach(z, s, mid, orders[..k])
    decreases |orders| - k
  {
    hide CancelOrder;
    if k == |orders| {
      assert orders[..k] == orders;
    } else {
      assert orders[..k + 1][..k] == orders[..k];
      FirstCancelErrorWins(z, s, mid, orders, k + 1);
    }
  }

  /** Credits an account for cancelled orders; the caller saves it. */
  method CreditRefunds(t: Terms, mid: MarketId, owner: AccountId, account: AccountV1, pending: seq<Pending>) returns (r: Result<()>)
    modifies account
    ensures match ProcessRefunds(t, mid, owner, old(account.Stored()), pending)
      case Ok(a) => r == Ok(()) && account.Stored() == a
      case Err(e) => r == Err(e)
  {
    ghost var before := account.Stored();
    var i := 0;
    while i < |pending|
      invariant i <= |pending|
      invariant ProcessRefunds(t, mid, owner, before, pending[..i]) == Ok(account.Stored())
    {
      assert pending[..i + 1][..i] == pending[..i];
      var step := CreditRefund(t, mid, owner, account, pending[i]);
      if step.Err? {
        FirstRefundErrorWins(t, mid, owner, before, pending, i + 1);
        return step;
      }
      i := i + 1;
    }
    assert pending[..i] == pending;
    return Ok(());
  }

  method CreditRefund(t: Terms, mid: MarketId, owner: AccountId, account: AccountV1, p: Pending) returns (r: Result<()>)
    modifies account
    ensures match RefundOne(t, mid, owner, old(account.Stored()), p)
      case Ok(a) => r == Ok(()) && account.Stored() == a
      case Err(e) => r == Err(e)
  {
    if p.order.owner != owner {
      return Err(OrderNotOwned);
    }
    var amount :- RefundAmount(t, p);
    var _ :- account.Deposit(EscrowToken(t, p.side), amount);
    var _ :- ToNative(p.order.openQty, t.lots.base);
    var _ := account.RemoveOrderInfo(mid, p.order.id);
    return Ok(());
  }

  /** A call ends in the step the state machine takes, or in its error with nothing changed. */
  ghost predicate Follows(spec: Result<State>, r: Result<()>, before: State, after: State) {
    match spec
    case Ok(s) => r == Ok(()) && after == s
    case Err(e) => r == Err(e) && after == before
  }

  class Contract {
    const sizes: Sizes
    var owner: AccountId
    var accounts: Accounts
    var markets: Markets
    var prevSequence: nat
    var mode: ContractState
    // Known to the chain, not stored: transfers, token holdings, NEAR held against storage.
    ghost var sends: seq<Send>
    ghost var held: map<Token, int>
    ghost var storageHeld: int

    constructor (sizes: Sizes, owner: AccountId)
      ensures View() == Deployed(owner) && this.sizes == sizes
    {
      this.sizes, this.owner, accounts, markets, prevSequence, mode := sizes, owner, map[], map[], 0, Active;
      sends, held, storageHeld := [], map[], 0;
    }

    ghost function View(): State
      reads this
    {
      State(owner, accounts, markets, prevSequence, mode, sends, held, storageHeld)
    }

    // ---------- Saving accounts ----------

    method SaveAccount(id: AccountId, account: AccountV1) returns (r: Result<()>)
      modifies this`accounts
      ensures match Save(sizes, old(accounts), id, account.Stored())
        case Ok(after) => r == Ok(()) && accounts == after
        case Err(e) => r == Err(e) && accounts == old(accounts)
    {
      var covered := account.IsStorageCovered(sizes);
      if !covered {
        return Err(InsufficientStorage);
      }
      accounts := accounts[id := account.Stored()];
      return Ok(());
    }

    method DepositInto(id: AccountId, t: Token, amount: nat) returns (r: Result<()>)
      modifies this`accounts
      ensures match InternalDeposit(sizes, old(accounts), id, t, amount)
        case Ok(after) => r == Ok(()) && accounts == after
        case Err(e) => r == Err(e) && accounts == old(accounts)
    {
      if id !in accounts {
        return Err(AccountNotFound);
      }
      var account := new AccountV1.Load(accounts[id]);
      var _ :- account.Deposit(t, amount);
      r := SaveAccount(id, account);
    }

    // ---------- Settlement ----------

    method SettleMaker(t: Terms, mid: MarketId, side: Side, f: Fill, so: MakerSettlement) returns (r: Result<MakerSettlement>)
      modifies this`accounts
      ensures match SettleFill(sizes, t, mid, side, Settled(old(accounts), so.base, so.quote, so.rebate), f)
        case Ok(s) => r == Ok(MakerSettlement(s.base, s.quote, s.rebate)) && accounts == s.accounts
        case Err(e) => r == Err(e)
    {
      hide Covered, RemoveOrderInfo;
      var _ :- U128(f.price * t.lots.quote);
      var qty :- U128(f.qty * t.lots.base);
      var base :- U128(so.base + qty);
      var quote :- U128(so.quote + f.quotePaid);
      if f.maker !in accounts {
        return Err(MakerNotFound);
      }
      var maker := new AccountV1.Load(accounts[f.maker]);
      if f.removed {
        var _ := maker.RemoveOrderInfo(mid, f.makerOrder);
      }
      var fillRebate :- Fee(t.makerRate, f.quotePaid);
      var rebate :- U128(so.rebate + fillRebate);
      var _ :- maker.Deposit(t.quoteToken, fillRebate);
      match side {
        case Buy => var _ :- maker.Deposit(t.quoteToken, f.quotePaid);
        case Sell => var _ :- maker.Deposit(t.baseToken, qty);
      }
      var _ :- SaveAccount(f.maker, maker);
      return Ok(MakerSettlement(base, quote, rebate));
    }

    /** Settles the makers of all fills, loading and saving an account for each. */
    method SettleMakerFills(t: Terms, mid: MarketId, side: Side, fills: seq<Fill>) returns (r: Result<MakerSettlement>)
      modifies this`accounts
      ensures match SettleMakers(sizes, t, mid, side, old(accounts), fills)
        case Ok(s) => r == Ok(MakerSettlement(s.base, s.quote, s.rebate)) && accounts == s.accounts
        case Err(e) => r == Err(e)
    {
      hide SettleFill;
      var total := MakerSettlement(0, 0, 0);
      if fills == [] {
        return Ok(total);
      }
      var i := 0;
      while i < |fills|
        invariant i <= |fills|
        invariant SettleMakers(sizes, t, mid, side, old(accounts), fills[..i])
               == Ok(Settled(accounts, total.base, total.quote, total.rebate))
      {
        assert Init(fills[..i + 1]) == fills[..i] && Last(fills[..i + 1]) == fills[i];
        var step := SettleMaker(t, mid, side, fills[i], total);
        if step.Err? {
          FirstErrorWins(sizes, t, mid, side, old(accounts), fills, i + 1);
          return step;
        }
        total := step.value;
        i := i + 1;
      }
      assert fills[..i] == fills;
      return Ok(total);
    }

    /** Credits the referrer if it can be saved, and returns what it was credited. */
    method SettleReferrerRebate(quote: Token, referrer: Option<AccountId>, fee: nat) returns (r: Result<nat>)
      modifies this`accounts
      ensures match SettleReferrer(sizes, quote, old(accounts), referrer, fee)
        case Ok(after) => r == Ok(after.1) && accounts == after.0
        case Err(e) => r == Err(e)
    {
      var rebate := 0;
      if referrer.Some? && referrer.value in accounts {
        var account := new AccountV1.Load(accounts[referrer.value]);
        rebate := ReferrerRebate(fee);
        var _ :- account.Deposit(quote, rebate);
        var saved := SaveAccount(referrer.value, account);
        if saved.Err? {
          rebate := 0;
        }
      }
      return Ok(rebate);
    }

    /** The part that limit orders, market orders and swaps share: makers, fee and referrer. */
    method SettleFills(t: Terms, mid: MarketId, side: Side, fills: seq<Fill>, referrer: Option<AccountId>,
                       ghost feesAccrued: nat) returns (r: Result<TradeTotals>)
      modifies this`accounts
      ensures match SettleTrade(sizes, t, mid, side, old(accounts), fills, referrer, feesAccrued)
        case Ok(tr) =>
          && r == Ok(TradeTotals(tr.base, tr.quote, tr.rebate, tr.fee, tr.referral))
          && accounts == tr.accounts && tr.fees == feesAccrued + (tr.fee - tr.rebate - tr.referral)
          && tr.rebate + tr.referral <= tr.fee
        case Err(e) => r == Err(e)
    {
      hide SettleMakers, SettleReferrer;
      var makers :- SettleMakerFills(t, mid, side, fills);
      var fee :- Fee(t.takerRate, makers.quote);
      var net :- Minus(fee, makers.rebate);
      var referral :- SettleReferrerRebate(t.quoteToken, referrer, net);
      var given :- U128(referral + makers.rebate);
      if given > fee {
        return Err(OverCountedFees);
      }
      return Ok(TradeTotals(makers.base, makers.quote, makers.rebate, fee, referral));
    }

    // ---------- Orders ----------

    method NextSequenceNumber() returns (n: nat)
      modifies this`prevSequence
      ensures n == prevSequence == old(prevSequence) + 1
    {
      prevSequence := prevSequence + 1;
      return prevSequence;
    }

    method ListOrder(taker: AccountV1, mid: MarketId, o: EngineOrder, pl: Placement, cap: nat, now: nat) returns (r: Result<()>)
      modifies taker`openOrders
      ensures match ListPosted(old(taker.Stored()), mid, o, pl, cap, now)
        case Ok(a) => r == Ok(()) && taker.Stored() == a
        case Err(e) => r == Err(e)
    {
      if pl.openQty > 0 {
        r := taker.SaveNewOrderInfo(mid, pl.id, OrderInfo(o.maxQty, now), cap);
      } else {
        return Ok(());
      }
    }

    method PayForBuy(taker: AccountV1, t: Terms, mid: MarketId, p: NewOrderParams, o: EngineOrder, pl: Placement, tr: TradeTotals,
                     ghost trade: Trade, maxDebit: nat, now: nat) returns (r: Result<()>)
      requires tr == TradeTotals(trade.base, trade.quote, trade.rebate, trade.fee, trade.referral)
      requires p.limitPrice.Some? && MaxBidDebit(t, p) == Ok(maxDebit)
      modifies taker
      ensures match SettleLimitBuy(t, mid, p, o, pl, trade, old(taker.Stored()), now)
        case Ok(a) => r == Ok(()) && taker.Stored() == a
        case Err(e) => r == Err(e)
    {
      hide LockAt, MaxBidDebit;
      var _ :- taker.Deposit(t.baseToken, tr.base);
      var locked :- CheckedLock(t.lots, p.limitPrice.value, pl.openQty);
      var spent :- U128(locked + tr.quote);
      var debit :- U128(spent + tr.fee);
      if debit > maxDebit {
        return Err(Overspent);
      }
      var _ :- taker.Withdraw(t.quoteToken, debit);
      var _ :- ListOrder(taker, mid, o, pl, t.maxOrders, now);
      var _ :- ToNative(pl.openQty, t.lots.base);
      return Ok(());
    }

    method PayForSell(taker: AccountV1, t: Terms, mid: MarketId, p: NewOrderParams, o: EngineOrder, pl: Placement, tr: TradeTotals,
                      ghost trade: Trade, now: nat) returns (r: Result<()>)
      requires tr == TradeTotals(trade.base, trade.quote, trade.rebate, trade.fee, trade.referral)
      modifies taker
      ensures match SettleLimitSell(t, mid, p, o, pl, trade, old(taker.Stored()), now)
        case Ok(a) => r == Ok(()) && taker.Stored() == a
        case Err(e) => r == Err(e)
    {
      var proceeds :- Minus(tr.quote, tr.fee);
      var _ :- taker.Deposit(t.quoteToken, proceeds);
      var locked :- ToNative(pl.openQty, t.lots.base);
      var debit :- U128(tr.base + locked);
      if debit > p.quantity {
        return Err(Oversold);
      }
      var _ :- taker.Withdraw(t.baseToken, debit);
      r := ListOrder(taker, mid, o, pl, t.maxOrders, now);
    }

    method PayForMarket(taker: AccountV1, t: Terms, p: NewOrderParams, tr: TradeTotals, ghost trade: Trade) returns (r: Result<()>)
      requires tr == TradeTotals(trade.base, trade.quote, trade.rebate, trade.fee, trade.referral)
      modifies taker
      ensures match SettleMarket(t, p, trade, old(taker.Stored()))
        case Ok(a) => r == Ok(()) && taker.Stored() == a
        case Err(e) => r == Err(e)
    {
      if p.side == Buy {
        var debit :- U128(tr.quote + tr.fee);
        if p.maxSpend.Some? && debit > p.maxSpend.value {
          return Err(Overspent);
        }
        var _ :- taker.Withdraw(t.quoteToken, debit);
        r := taker.Deposit(t.baseToken, tr.base);
      } else {
        var proceeds :- Minus(tr.quote, tr.fee);
        var _ :- taker.Withdraw(t.baseToken, tr.base);
        r := taker.Deposit(t.quoteToken, proceeds);
      }
    }

    /** Runs an order against the market and settles both sides; the caller saves taker and market. */
    method PlaceOrder(market: Market, takerId: AccountId, taker: AccountV1, mid: MarketId, p: NewOrderParams, now: nat)
        returns (r: Result<()>, ghost placed: Option<Placement>)
      requires ValidOrder(p)
      modifies this`accounts, this`prevSequence, market, taker
      ensures match Place(sizes, old(accounts), old(market.Stored()), old(prevSequence) + 1, takerId, mid, p, placed, now, old(taker.Stored()))
        case Ok(done) =>
          && r == Ok(()) && accounts == done.accounts && market.Stored() == done.market && taker.Stored() == done.taker
          && prevSequence == old(prevSequence) + 1
        case Err(e) => r == Err(e)
    {
      hide EngineOk, NewBook, SettleTrade, SettleMarket, SettleLimitBuy, SettleLimitSell, TakesBest, Exhausted, AllOpen, Covered, Resting;
      placed := None;
      var t := market.terms;
      ghost var before := market.Stored();
      var sequence := NextSequenceNumber();
      var o :- Prepare(t, market.book, p, sequence);
      PreparedOrder(t, before.book, p, o) by { PreparedSequence(t, before.book, p, sequence); }
      PreparedDebit(t, before.book, p, sequence);
      var maxDebit := if p.orderType.Market? || p.side == Sell then 0 else MaxBidDebit(t, p).value;
      hide Prepare, MaxBidDebit;
      var answer := market.PlaceOrder(takerId, o);
      if answer.Err? {
        return Err(answer.error), None;
      }
      var pl := answer.value;
      placed := Some(pl);
      var tr :- SettleFills(t, mid, o.side, pl.fills, p.referrer, before.feesAccrued);
      ghost var trade := SettleTrade(sizes, t, mid, o.side, old(accounts), pl.fills, p.referrer, before.feesAccrued).value;
      if p.orderType.Market? {
        var _ :- PayForMarket(taker, t, p, tr, trade);
        r := market.IncrFeesAccrued(tr.fee - tr.rebate - tr.referral);
      } else {
        var _ :- market.IncrFeesAccrued(tr.fee - tr.rebate - tr.referral);
        if p.side == Buy {
          r := PayForBuy(taker, t, mid, p, o, pl, tr, trade, maxDebit, now);
        } else {
          r := PayForSell(taker, t, mid, p, o, pl, tr, trade, now);
        }
      }
    }

    method NewOrder(caller: AccountId, mid: MarketId, p: NewOrderParams, now: nat) returns (r: Result<()>, ghost placed: Option<Placement>)
      modifies this
      ensures Follows(Exchange.NewOrder(sizes, old(View()), caller, mid, p, placed, now), r, old(View()), View())
    {
      hide Place, Covered, ValidOrder;
      placed := None;
      if !mode.Active? {
        return Err(ContractNotActive), None;
      }
      if !ValidOrder(p) {
        return Err(InvalidOrder), None;
      }
      if mid !in markets {
        return Err(MarketNotFound), None;
      }
      if !markets[mid].state.Trading? {
        return Err(MarketNotActive), None;
      }
      if caller !in accounts {
        return Err(AccountNotFound), None;
      }
      var accountsBefore, sequenceBefore := accounts, prevSequence;
      var market := new Market.Load(markets[mid]);
      var taker := new AccountV1.Load(accounts[caller]);
      r, placed := PlaceOrder(market, caller, taker, mid, p, now);
      if r.Ok? {
        r := SaveAccount(caller, taker);
      }
      if r.Err? {
        // A panic reverts the call.
        accounts, prevSequence := accountsBefore, sequenceBefore;
      } else {
        markets := markets[mid := market.Stored()];
      }
    }

    // ---------- Swaps ----------

    /** A market order for the wallet of the signer, who needs no exchange account. */
    method InternalSwap(market: Market, mid: MarketId, side: Side, amount: nat, referrer: Option<AccountId>, signer: AccountId)
        returns (r: Result<(nat, nat)>, ghost placed: Option<Placement>)
      modifies this`accounts, this`prevSequence, market
      ensures match Exchange.Swap(sizes, old(accounts), old(market.Stored()), old(prevSequence) + 1, signer, mid, side, amount, referrer, placed)
        case Ok(done) =>
          && r == Ok((done.output, done.refund)) && accounts == done.accounts && market.Stored() == done.market
          && prevSequence == old(prevSequence) + 1
        case Err(e) => r == Err(e)
    {
      hide EngineOk, NewBook, SettleTrade, TakesBest, Exhausted, AllOpen, Covered, Resting;
      placed := None;
      var t := market.terms;
      var sequence := NextSequenceNumber();
      var o :- SwapOrder(t, side, amount, sequence);
      SwapOrderShape(t, side, amount, sequence);
      hide SwapOrder, SwapOutput, SwapRefund;
      var answer := market.PlaceOrder(signer, o);
      if answer.Err? {
        return Err(answer.error), None;
      }
      placed := Some(answer.value);
      var tr :- SettleFills(t, mid, side, answer.value.fills, referrer, market.feesAccrued);
      var _ :- market.IncrFeesAccrued(tr.fee - tr.rebate - tr.referral);
      var trade := Trade(map[], tr.base, tr.quote, tr.rebate, tr.fee, tr.referral, 0);
      SwapAmountsIgnoreAccounts(side, amount, trade, accounts, market.feesAccrued);
      var output :- SwapOutput(side, trade);
      var refund :- SwapRefund(side, amount, trade);
      return Ok((output, refund)), placed;
    }

    /** One hop of a chain. */
    method ExecuteSwapAction(signer: AccountId, a: SwapAction, token: Token, amount: nat) returns (r: Result<SwapResult>, ghost h: Hop)
      modifies this`accounts, this`prevSequence, this`markets
      ensures IsHop(h, a)
      ensures match SwapHop(sizes, old(View()), signer, token, amount, h)
        case Ok(c) => r == Ok(SwapResult(c.token, c.amount, c.refund)) && View() == c.state
        case Err(e) => r == Err(e)
    {
      hide Exchange.Swap;
      h := Hop(a.market, a.side, a.minOutput, a.referrer, None);
      if a.market !in markets {
        return Err(MarketNotFound), h;
      }
      var market := new Market.Load(markets[a.market]);
      if token != InputToken(market.terms, a.side) {
        return Err(WrongSwapToken), h;
      }
      if !market.state.Trading? {
        return Err(MarketNotActive), h;
      }
      var swapped;
      ghost var placed;
      swapped, placed := InternalSwap(market, a.market, a.side, amount, a.referrer, signer);
      h := h.(placed := placed);
      if swapped.Err? {
        return Err(swapped.error), h;
      }
      var (output, refund) := swapped.value;
      if a.minOutput.Some? && output < a.minOutput.value {
        return Err(ExceededSlippage), h;
      }
      markets := markets[a.market := market.Stored()];
      return Ok(SwapResult(OutputToken(market.terms, a.side), output, refund)), h;
    }

    /** Runs the hops one after the other, each on the output of the one before. */
    method ExecuteHops(signer: AccountId, inputToken: Token, inputAmount: nat, swaps: seq<SwapAction>)
        returns (r: Result<SwapResult>, ghost hops: seq<Hop>)
      modifies this`accounts, this`prevSequence, this`markets
      ensures Answers(hops, swaps)
      ensures match SwapChain(sizes, old(View()), signer, inputToken, inputAmount, hops)
        case Ok(c) => r == Ok(SwapResult(c.token, c.amount, c.refund)) && View() == c.state
        case Err(e) => r == Err(e)
    {
      hide SwapHop;
      hops := Unanswered(swaps);
      ghost var start := View();
      var carried := SwapResult(inputToken, inputAmount, 0);
      var i := 0;
      while i < |swaps|
        invariant i <= |swaps|
        invariant Answers(hops, swaps)
        invariant SwapChain(sizes, start, signer, inputToken, inputAmount, hops[..i])
               == Ok(Carried(View(), carried.token, carried.output, carried.refund))
      {
        ghost var sofar := hops;
        ghost var h;
        var result;
        result, h := ExecuteSwapAction(signer, swaps[i], carried.token, carried.output);
        hops := hops[i := h];
        assert hops[..i] == sofar[..i];
        assert hops[..i + 1][..i] == hops[..i] && hops[..i + 1][i] == h;
        if result.Err? {
          FirstHopErrorWins(sizes, start, signer, inputToken, inputAmount, hops, i + 1);
          return result, hops;
        }
        carried := result.value;
        i := i + 1;
      }
      assert hops[..i] == hops;
      return Ok(carried), hops;
    }

    /** Swaps the tokens that have arrived and sends out what comes of them; refunds of hops are dropped. */
    method ExecuteSwaps(signer: AccountId, sender: AccountId, inputToken: Token, inputAmount: nat, swaps: seq<SwapAction>)
        returns (r: Result<()>, ghost hops: seq<Hop>)
      modifies this
      ensures Answers(hops, swaps)
      ensures Follows(Exchange.ExecuteSwaps(sizes, old(View()), signer, sender, inputToken, inputAmount, hops), r, old(View()), View())
    {
      hide SwapChain;
      hops := Unanswered(swaps);
      if !mode.Active? {
        return Err(ContractNotActive), hops;
      }
      if swaps == [] {
        return Err(NoSwaps), hops;
      }
      if swaps[|swaps| - 1].minOutput.None? {
        assert IsHop(hops[|swaps| - 1], swaps[|swaps| - 1]);
        return Err(ExceededSlippage), hops;
      }
      var accountsBefore, marketsBefore, sequenceBefore := accounts, markets, prevSequence;
      ghost var heldBefore := held;
      held := AddHeld(View(), inputToken, inputAmount).held;
      var done;
      done, hops := ExecuteHops(signer, inputToken, inputAmount, swaps);
      assert IsHop(hops[|swaps| - 1], swaps[|swaps| - 1]);
      if done.Err? {
        accounts, markets, prevSequence := accountsBefore, marketsBefore, sequenceBefore;
        held := heldBefore;
        return Err(done.error), hops;
      }
      if done.value.output > 0 {
        sends := sends + [Send(done.value.token, sender, done.value.output, InFlight)];
      }
      return Ok(()), hops;
    }

    // ---------- Cancels ----------

    method InternalCancelOrder(mid: MarketId, account: AccountId, id: OrderId) returns (r: Result<()>)
      modifies this`accounts, this`markets
      ensures Follows(Exchange.CancelOrder(sizes, old(View()), account, mid, id), r, old(View()), View())
    {
      hide ProcessRefunds, TakeOrder, Covered, RemoveOrderInfo, Has;
      if mid !in markets {
        return Err(MarketNotFound);
      }
      var market := new Market.Load(markets[mid]);
      if !CanCancel(market.Stored()) {
        return Err(CannotCancel);
      }
      if account !in accounts {
        return Err(AccountNotFound);
      }
      var holder := new AccountV1.Load(accounts[account]);
      var found := holder.RemoveOrderInfo(mid, id);
      if !found {
        return Err(OrderNotFound);
      }
      var taken := market.CancelOrder(id);
      if taken.None? {
        return Err(OrderNotOnBook);
      }
      var _ :- CreditRefunds(market.terms, mid, account, holder, [taken.value]);
      var _ :- SaveAccount(account, holder);
      markets := markets[mid := market.Stored()];
      return Ok(());
    }

    method InternalCancelAllOrders(mid: MarketId, account: AccountId) returns (r: Result<()>, ghost ids: seq<OrderId>)
      modifies this`accounts, this`markets
      ensures Follows(Exchange.CancelAll(sizes, old(View()), account, mid, ids), r, old(View()), View())
    {
      hide ProcessRefunds, TakeOrders, Enumerates, Covered, ListedIds, RemoveAllOrderInfos;
      ids := [];
      if mid !in markets {
        return Err(MarketNotFound), [];
      }
      var market := new Market.Load(markets[mid]);
      if !CanCancel(market.Stored()) {
        return Err(CannotCancel), [];
      }
      if account !in accounts {
        return Err(AccountNotFound), [];
      }
      var holder := new AccountV1.Load(accounts[account]);
      var listed := holder.RemoveAllOrderInfos(mid);
      ids := listed;
      var pending :- market.CancelOrders(listed);
      var _ :- CreditRefunds(market.terms, mid, account, holder, pending);
      var _ :- SaveAccount(account, holder);
      markets := markets[mid := market.Stored()];
      return Ok(()), ids;
    }

    method CancelOrder(caller: AccountId, mid: MarketId, id: OrderId) returns (r: Result<()>)
      modifies this
      ensures Follows(Apply(sizes, old(View()), ActCancel(caller, mid, id)), r, old(View()), View())
    {
      hide Exchange.CancelOrder;
      if mode.Paused? {
        return Err(CannotCancel);
      }
      r := InternalCancelOrder(mid, caller, id);
    }

    method CancelAllOrders(caller: AccountId, mid: MarketId) returns (r: Result<()>, ghost ids: seq<OrderId>)
      modifies this
      ensures Follows(Apply(sizes, old(View()), ActCancelAll(caller, mid, ids)), r, old(View()), View())
    {
      hide CancelAll;
      ids := [];
      if !mode.Active? {
        return Err(ContractNotActive), [];
      }
      r, ids := InternalCancelAllOrders(mid, caller);
    }

    /** Cancels a snapshot of the book order by order, asks first; each cancel reloads the stored market. */
    method ClearOrderbook(caller: AccountId, mid: MarketId, limit: Option<nat>) returns (r: Result<()>)
      modifies this
      ensures Follows(Apply(sizes, old(View()), ActClear(caller, mid, limit)), r, old(View()), View())
    {
      hide Exchange.CancelOrder, Snapshot;
      if caller != owner {
        return Err(NotOwner);
      }
      if mid !in markets {
        return Err(MarketNotFound);
      }
      if !CanCancel(markets[mid]) {
        return Err(CannotCancel);
      }
      var orders := Snapshot(markets[mid].book, limit);
      var accountsBefore, marketsBefore := accounts, markets;
      ghost var start := View();
      var i := 0;
      while i < |orders|
        invariant i <= |orders|
        invariant CancelEach(sizes, start, mid, orders[..i]) == Ok(View())
        invariant View() == start.(accounts := accounts, markets := markets)
      {
        assert orders[..i + 1][..i] == orders[..i];
        var step := InternalCancelOrder(mid, orders[i].owner, orders[i].id);
        if step.Err? {
          FirstCancelErrorWins(sizes, start, mid, orders, i + 1);
          accounts, markets := accountsBefore, marketsBefore;
          return step;
        }
        i := i + 1;
      }
      assert orders[..i] == orders;
      return Ok(());
    }

    // ---------- Deposits, withdrawals, callbacks ----------

    method DepositTokens(account: AccountId, t: Token, amount: nat) returns (r: Result<()>)
      modifies this
      ensures Follows(Exchange.DepositTokens(sizes, old(View()), account, t, amount), r, old(View()), View())
    {
      hide InternalDeposit;
      if !mode.Active? {
        return Err(ContractNotActive);
      }
      var _ :- DepositInto(account, t, amount);
      held := AddHeld(View(), t, amount).held;
      return Ok(());
    }

    method WithdrawTokens(caller: AccountId, t: Token, amount: nat) returns (r: Result<()>)
      modifies this
      ensures Follows(Exchange.WithdrawTokens(sizes, old(View()), caller, t, amount), r, old(View()), View())
    {
      if !mode.Active? {
        return Err(ContractNotActive);
      }
      if amount == 0 {
        return Err(InvalidAmount);
      }
      if caller !in accounts {
        return Err(AccountNotFound);
      }
      var account := new AccountV1.Load(accounts[caller]);
      var _ :- account.Withdraw(t, amount);
      var _ :- SaveAccount(caller, account);
      sends, held := sends + [Send(t, caller, amount, InFlight)], TakeYocto(View()).held;
      return Ok(());
    }

    /** Runs after the transfer of send `i`; `failed` is its promise result. */
    method CallbackPostWithdraw(ghost i: nat, t: Token, receiver: AccountId, amount: nat, failed: bool)
      requires i < |sends|
      requires sends[i].token == t && sends[i].receiver == receiver && sends[i].amount == amount
      requires sends[i].status == if failed then Bounced else Delivered
      modifies this
      ensures Exchange.WithdrawCallback(sizes, old(View()), i) == Ok(View())
    {
      hide InternalDeposit;
      ghost var credited: Option<AccountId> := None;
      if failed {
        var target := if receiver in accounts then receiver else owner;
        var r := DepositInto(target, t, amount);
        if r.Ok? {
          credited := Some(target);
        }
      }
      sends := sends[i := sends[i].(status := Closed(credited))];
    }

    // ---------- Storage ----------

    method LockedBytesCost(a: VAccount) returns (cost: nat)
      ensures cost == Locked(sizes, a)
    {
      var account := new AccountV1.Load(a);
      var size := account.SizeInBytes(sizes);
      return size * sizes.byteCost;
    }

    method StorageDeposit(account: AccountId, registrationOnly: bool, amount: nat) returns (r: Result<()>, refund: nat)
      modifies this
      ensures Follows(Exchange.StorageDeposit(sizes, old(View()), account, registrationOnly, amount), r, old(View()), View())
      ensures r.Ok? ==> storageHeld == old(storageHeld) + amount - refund
    {
      hide Locked, Covered;
      refund := 0;
      if !mode.Active? {
        return Err(ContractNotActive), 0;
      }
      if account in accounts {
        if registrationOnly && amount > 0 {
          return Ok(()), amount;
        }
        var holder := new AccountV1.Load(accounts[account]);
        var total :- U128(holder.storageBalance + amount);
        holder.storageBalance := total;
        var _ :- SaveAccount(account, holder);
      } else {
        var holder := new AccountV1.Load(EMPTY_ACCOUNT);
        var minimum := LockedBytesCost(EMPTY_ACCOUNT);
        if amount < minimum {
          return Err(InsufficientStorage), 0;
        }
        if registrationOnly {
          refund := amount - minimum;
          holder.storageBalance := minimum;
        } else {
          holder.storageBalance := amount;
        }
        var _ :- SaveAccount(account, holder);
      }
      storageHeld := storageHeld + amount - refund;
      return Ok(()), refund;
    }

    method StorageWithdraw(caller: AccountId, amount: Option<nat>) returns (r: Result<()>)
      modifies this
      ensures Follows(Exchange.StorageWithdraw(sizes, old(View()), caller, amount), r, old(View()), View())
    {
      hide Locked, Covered;
      if !mode.Active? {
        return Err(ContractNotActive);
      }
      if caller !in accounts {
        return Err(AccountNotFound);
      }
      var stored := accounts[caller];
      var locked := LockedBytesCost(stored);
      var available :- Minus(stored.storageBalance, Max(locked, ACCOUNT_SIZE * sizes.byteCost));
      var taken := match amount case Some(n) => n case None => available;
      if taken > available {
        return Err(InsufficientStorage);
      }
      if taken > 0 {
        var account := new AccountV1.Load(stored);
        account.storageBalance :- Minus(account.storageBalance, taken);
        var _ :- SaveAccount(caller, account);
        storageHeld := storageHeld - taken;
      }
      held := TakeYocto(View()).held;
      return Ok(());
    }

    method StorageUnregister(caller: AccountId) returns (r: Result<()>)
      modifies this
      ensures Follows(Exchange.StorageUnregister(old(View()), caller), r, old(View()), View())
    {
      if !mode.Active? {
        return Err(ContractNotActive);
      }
      if caller !in accounts {
        return Err(AccountNotFound);
      }
      var stored := accounts[caller];
      if stored.balances != map[] || stored.openOrders != map[] {
        return Err(AccountNotEmpty);
      }
      accounts := accounts - {caller};
      storageHeld, held := storageHeld - stored.storageBalance, TakeYocto(View()).held;
      return Ok(());
    }

    // ---------- Owner ----------

    method SetContractState(caller: AccountId, state: ContractState) returns (r: Result<()>)
      modifies this
      ensures Follows(Apply(sizes, old(View()), ActSetMode(caller, state)), r, old(View()), View())
    {
      if caller != owner {
        return Err(NotOwner);
      }
      mode := state;
      return Ok(());
    }

    method SetMarketState(caller: AccountId, mid: MarketId, state: MarketState) returns (r: Result<()>)
      modifies this
      ensures Follows(Exchange.SetMarketState(old(View()), caller, mid, state), r, old(View()), View())
    {
      if caller != owner {
        return Err(NotOwner);
      }
      if mid !in markets {
        return Err(MarketNotFound);
      }
      var market := new Market.Load(markets[mid]);
      market.state := state;
      markets := markets[mid := market.Stored()];
      return Ok(());
    }
  }

  // ---------- Facts the methods use ----------

  lemma PreparedDebit(t: Terms, b: Book, p: NewOrderParams, sequence: nat)
    requires ValidOrder(p)
    requires Prepare(t, b, p, sequence).Ok?
    ensures !p.orderType.Market? && p.side == Buy ==> MaxBidDebit(t, p).Ok?
  {
    hide QtyFor;
  }

  lemma SwapAmountsIgnoreAccounts(side: Side, amount: nat, tr: Trade, accounts: Accounts, fees: nat)
    ensures SwapOutput(side, tr) == SwapOutput(side, tr.(accounts := accounts, fees := fees))
    ensures SwapRefund(side, amount, tr) == SwapRefund(side, amount, tr.(accounts := accounts, fees := fees))
  {
  }

  ghost function Unanswered(swaps: seq<SwapAction>): (hops: seq<Hop>)
    ensures Answers(hops, swaps)
  {
    seq(|swaps|, k requires 0 <= k < |swaps| => Hop(swaps[k].market, swaps[k].side, swaps[k].minOutput, swaps[k].referrer, None))
  }
}

/** Properties of single protocols: two-phase settlement, swap chains, withdrawals, order ids. */
module Protocols {
  import opened Arithmetic
  import opened Exchange
  import opened Fees
  import opened Invariants
  import opened Ledger
  import opened MatchingEngine
  import opened OrderBook
  import opened OrderIndex
  import opened Orders
  import opened Outcomes
  import opened Reachability
  import opened Settlement
  import opened Solvency
  import opened StoredAccount
  import opened StoredMarket
  import opened Types

  // ---------- Two-phase settlement against one ledger ----------

  /** All that an order moves for one account, entered on one ledger at once. */
  function LedgerNet(t: Terms, caller: AccountId, p: NewOrderParams, pl: Placement, tr: Trade, a: AccountId, token: Token): int {
    Earned(t, p.side, pl.fills, a, token)
    + (if p.referrer == Some(a) && token == t.quoteToken then tr.referral else 0)
    + (if a == caller then TakerNet(t, p.side, p.limitPrice, pl.openQty, tr, token) else 0)
  }

  /** The taker's cached account overwrites what was credited to it meanwhile. */
  function Overwritten(t: Terms, caller: AccountId, p: NewOrderParams, tr: Trade, a: AccountId, token: Token): nat {
    if a == caller && p.referrer == Some(caller) && token == t.quoteToken then tr.referral else 0
  }

  /** Account by account, two-phase settlement is the one ledger, less the update it loses. */
  lemma TwoPhaseLedger(z: Sizes, s: State, caller: AccountId, mid: MarketId, p: NewOrderParams, pl: Placement, now: nat,
                       o: EngineOrder, tr: Trade, taker: VAccount, after: State, a: AccountId, token: Token)
    requires OrderParts(z, s, caller, mid, p, pl, now, o, tr, taker, after)
    ensures (a in after.accounts <==> a in s.accounts)
    ensures BalanceAt(after.accounts, a, token) == BalanceAt(s.accounts, a, token)
      + LedgerNet(s.markets[mid].terms, caller, p, pl, tr, a, token)
      - Overwritten(s.markets[mid].terms, caller, p, tr, a, token)
  {
    var m := s.markets[mid];
    TradeEffect(z, m.terms, mid, o.side, s.accounts, pl.fills, p.referrer, m.feesAccrued, a, token);
    TradeEffect(z, m.terms, mid, o.side, s.accounts, pl.fills, p.referrer, m.feesAccrued, caller, token);
    TakerEarnsNothing(m.terms, caller, o.side, o.limitPrice, Resting(m.book, Opposite(o.side)), pl.fills, token);
    TakerEffect(m.terms, m.book, mid, caller, p, o, pl, tr, s.accounts[caller], now, token);
    hide SettleTrade, SettleTaker, Prepare, EngineOk, NewBook, Balance, TakerNet, Earned, Covered, ListPosted, ValidOrder;
  }

  /** What of the taker fee the makers' rebates leave. */
  function NetFee(t: Terms, fills: seq<Fill>): int {
    FeeOn(t.takerRate, TotalQuote(fills)) - TotalRebate(t.makerRate, fills)
  }

  /** The taker names itself as referrer, a fee is left, and its stored account can hold the credit. */
  ghost predicate PaidAsOwnReferrer(z: Sizes, t: Terms, accounts: Accounts, caller: AccountId, p: NewOrderParams, fills: seq<Fill>) {
    && p.referrer == Some(caller)
    && NetFee(t, fills) > 0
    && CanHold(z, accounts, caller, t.quoteToken, NetFee(t, fills))
  }

  lemma OwnReferral(z: Sizes, t: Terms, mid: MarketId, side: Side, accounts: Accounts, fills: seq<Fill>, fees: nat,
                    caller: AccountId, limit: Option<nat>, os: seq<Order>, p: NewOrderParams)
    requires FillsOk(t.lots, caller, side, limit, os, fills)
    requires caller in accounts
    requires SettleTrade(z, t, mid, side, accounts, fills, p.referrer, fees).Ok?
    ensures var tr := SettleTrade(z, t, mid, side, accounts, fills, p.referrer, fees).value;
      (p.referrer == Some(caller) && tr.referral > 0) <==> PaidAsOwnReferrer(z, t, accounts, caller, p, fills)
  {
    hide Covered, SettleMakers, TotalQuote, TotalRebate, FillsOk, FeeOn;
    NonMakerUntouched(z, t, mid, side, accounts, fills, caller, limit, os);
    MakersAreFolded(z, t, mid, side, accounts, fills, caller, t.quoteToken);
    FeeSplitIsTotal(z, t, mid, side, accounts, fills, p.referrer, fees);
  }

  /** An account without the orders of its own that the fills consumed. */
  function WithoutFilled(a: VAccount, mid: MarketId, id: AccountId, fills: seq<Fill>): VAccount {
    if fills == [] then a
    else
      var earlier := WithoutFilled(a, mid, id, Init(fills));
      if Last(fills).maker == id && Last(fills).removed then RemoveOrderInfo(earlier, mid, Last(fills).makerOrder) else earlier
  }

  lemma SameRemoval(a: VAccount, b: VAccount, mid: MarketId, id: OrderId)
    requires a.openOrders == b.openOrders
    ensures RemoveOrderInfo(a, mid, id).openOrders == RemoveOrderInfo(b, mid, id).openOrders
  {
  }

  /** The maker phase takes every consumed order off its owner's list, whatever the order of the fills. */
  lemma {:induction false} MakersLists(z: Sizes, t: Terms, mid: MarketId, side: Side, accounts: Accounts, fills: seq<Fill>, a: AccountId)
    requires SettleMakers(z, t, mid, side, accounts, fills).Ok?
    requires a in accounts
    ensures var after := SettleMakers(z, t, mid, side, accounts, fills).value.accounts;
      && a in after
      && after[a].openOrders == WithoutFilled(accounts[a], mid, a, fills).openOrders
      && after[a].storageBalance == accounts[a].storageBalance
  {
    hide SettleFill, RemoveOrderInfo, Covered;
    if fills != [] {
      var f := Last(fills);
      var s := SettleMakers(z, t, mid, side, accounts, Init(fills)).value;
      MakersLists(z, t, mid, side, accounts, Init(fills), a);
      SettleFillEffect(z, t, mid, side, s, f, t.quoteToken);
      SameRemoval(s.accounts[a], WithoutFilled(accounts[a], mid, a, Init(fills)), mid, f.makerOrder);
    }
  }

  lemma {:induction false} TakerKeepsOrders(lots: Lots, mid: MarketId, side: Side, limit: Option<nat>, os: seq<Order>, fills: seq<Fill>,
                                            taker: AccountId, a: VAccount)
    requires FillsOk(lots, taker, side, limit, os, fills)
    ensures WithoutFilled(a, mid, taker, fills) == a
  {
    if fills != [] {
      TakerKeepsOrders(lots, mid, side, limit, os, Init(fills), taker, a);
    }
  }

  /** One ledger's lists: consumed orders are gone, and the caller lists what it posted. */
  function LedgerLists(t: Terms, mid: MarketId, caller: AccountId, o: EngineOrder, pl: Placement, now: nat, id: AccountId, a: VAccount): OpenOrders {
    var kept := WithoutFilled(a, mid, id, pl.fills);
    if id != caller then kept.openOrders
    else
      match ListPosted(kept, mid, o, pl, t.maxOrders, now)
      case Ok(listed) => listed.openOrders
      case Err(_) => kept.openOrders
  }

  /** Lists and storage deposits always end where one ledger would leave them. */
  lemma TwoPhaseLists(z: Sizes, s: State, caller: AccountId, mid: MarketId, p: NewOrderParams, pl: Placement, now: nat,
                      o: EngineOrder, tr: Trade, taker: VAccount, after: State, a: AccountId)
    requires OrderParts(z, s, caller, mid, p, pl, now, o, tr, taker, after)
    requires a in s.accounts
    ensures a in after.accounts
    ensures after.accounts[a].openOrders == LedgerLists(s.markets[mid].terms, mid, caller, o, pl, now, a, s.accounts[a])
    ensures after.accounts[a].storageBalance == s.accounts[a].storageBalance
  {
    hide SettleMakers, SettleReferrer, SettleTaker, Prepare, NewBook, Covered, ListPosted, WithoutFilled, TakerNet, Balance, ValidOrder;
    var m := s.markets[mid];
    var t := m.terms;
    if a == caller {
      TakerKeepsOrders(t.lots, mid, o.side, o.limitPrice, Resting(m.book, Opposite(o.side)), pl.fills, caller, s.accounts[caller]);
      TakerEffect(t, m.book, mid, caller, p, o, pl, tr, s.accounts[caller], now, t.quoteToken);
    } else {
      var made := SettleMakers(z, t, mid, o.side, s.accounts, pl.fills).value;
      MakersLists(z, t, mid, o.side, s.accounts, pl.fills, a);
      ReferrerCases(z, t.quoteToken, made.accounts, p.referrer, tr.fee - made.rebate, t.quoteToken);
    }
  }

  /** Everything but the balances, as one ledger with all transfers entered at once would leave it. */
  ghost predicate OneLedgerBeside(s: State, caller: AccountId, mid: MarketId, o: EngineOrder, pl: Placement, tr: Trade, now: nat, after: State)
    requires mid in s.markets
  {
    var m := s.markets[mid];
    && after.accounts.Keys == s.accounts.Keys
    && (forall a :: a in s.accounts ==>
          && after.accounts[a].openOrders == LedgerLists(m.terms, mid, caller, o, pl, now, a, s.accounts[a])
          && after.accounts[a].storageBalance == s.accounts[a].storageBalance)
    && mid in after.markets
    && after.markets[mid].feesAccrued + tr.rebate + tr.referral == m.feesAccrued + tr.fee
    && after == s.(accounts := after.accounts,
                   markets := s.markets[mid := m.(book := NewBook(m.book, caller, o, pl), feesAccrued := after.markets[mid].feesAccrued)],
                   prevSequence := s.prevSequence + 1)
  }

  ghost predicate OneLedgerBalances(s: State, caller: AccountId, mid: MarketId, p: NewOrderParams, pl: Placement, tr: Trade, after: State)
    requires mid in s.markets
  {
    forall a, token :: BalanceAt(after.accounts, a, token)
      == BalanceAt(s.accounts, a, token) + LedgerNet(s.markets[mid].terms, caller, p, pl, tr, a, token)
  }

  /** Lists, deposits, book, fees and sequence never lose anything to the second write. */
  lemma TwoPhaseKeepsTheRest(z: Sizes, s: State, caller: AccountId, mid: MarketId, p: NewOrderParams, pl: Placement, now: nat,
                             o: EngineOrder, tr: Trade, taker: VAccount, after: State)
    requires OrderParts(z, s, caller, mid, p, pl, now, o, tr, taker, after)
    ensures OneLedgerBeside(s, caller, mid, o, pl, tr, now, after)
  {
    hide SettleTrade, SettleTaker, Prepare, EngineOk, NewBook, Covered, LedgerNet, LedgerLists, BalanceAt, TotalQuote, TotalRebate, TotalQty;
    var m := s.markets[mid];
    FeeSplitIsTotal(z, m.terms, mid, o.side, s.accounts, pl.fills, p.referrer, m.feesAccrued);
    forall a
      ensures a in after.accounts <==> a in s.accounts
    {
      TwoPhaseLedger(z, s, caller, mid, p, pl, now, o, tr, taker, after, a, m.terms.quoteToken);
    }
    forall a | a in s.accounts
      ensures a in after.accounts
      ensures after.accounts[a].openOrders == LedgerLists(m.terms, mid, caller, o, pl, now, a, s.accounts[a])
      ensures after.accounts[a].storageBalance == s.accounts[a].storageBalance
    {
      TwoPhaseLists(z, s, caller, mid, p, pl, now, o, tr, taker, after, a);
    }
  }

  /**
   * No update is lost exactly when the taker is not paid as its own referrer: balances, lists, deposits,
   * book and fees then all end where one ledger with all transfers would leave them.
   */
  lemma TwoPhaseIsOneLedger(z: Sizes, s: State, caller: AccountId, mid: MarketId, p: NewOrderParams, pl: Placement, now: nat,
                            o: EngineOrder, tr: Trade, taker: VAccount, after: State)
    requires OrderParts(z, s, caller, mid, p, pl, now, o, tr, taker, after)
    ensures OneLedgerBalances(s, caller, mid, p, pl, tr, after) && OneLedgerBeside(s, caller, mid, o, pl, tr, now, after)
       <==> !PaidAsOwnReferrer(z, s.markets[mid].terms, s.accounts, caller, p, pl.fills)
  {
    hide BalanceAt, LedgerNet, PaidAsOwnReferrer, OneLedgerBeside;
    var m := s.markets[mid];
    OwnReferral(z, m.terms, mid, o.side, s.accounts, pl.fills, m.feesAccrued, caller, o.limitPrice, Resting(m.book, Opposite(o.side)), p);
    TwoPhaseKeepsTheRest(z, s, caller, mid, p, pl, now, o, tr, taker, after);
    forall a, token
      ensures BalanceAt(after.accounts, a, token) == BalanceAt(s.accounts, a, token)
        + LedgerNet(m.terms, caller, p, pl, tr, a, token) - Overwritten(m.terms, caller, p, tr, a, token)
    {
      TwoPhaseLedger(z, s, caller, mid, p, pl, now, o, tr, taker, after, a, token);
    }
    hide OrderParts;
    var quote := m.terms.quoteToken;
    assert BalanceAt(after.accounts, caller, quote) == BalanceAt(s.accounts, caller, quote)
        + LedgerNet(m.terms, caller, p, pl, tr, caller, quote) - Overwritten(m.terms, caller, p, tr, caller, quote);
  }

  // ---------- The trading window ----------

  lemma PlaceKeepsWindow(z: Sizes, accounts: Accounts, m: VMarket, sequence: nat, caller: AccountId, mid: MarketId, p: NewOrderParams,
                         placed: Option<Placement>, now: nat, taker: VAccount)
    requires ValidOrder(p)
    ensures Place(z, accounts, m, sequence, caller, mid, p, placed, now, taker) == Err(OutsideTradingWindow)
       <==> OutsideWindow(m.terms, m.book, p)
  {
    hide SettleTrade, SettleTaker, Prepare, EngineOk, NewBook, OutsideWindow;
    PrepareKeepsWindow(m.terms, m.book, p, sequence);
    if Prepare(m.terms, m.book, p, sequence).Ok? && placed.Some? {
      var o, pl := Prepare(m.terms, m.book, p, sequence).value, placed.value;
      TradeNeverDivides(z, m.terms, mid, o.side, accounts, pl.fills, p.referrer, m.feesAccrued);
      var trade := SettleTrade(z, m.terms, mid, o.side, accounts, pl.fills, p.referrer, m.feesAccrued);
      if trade.Ok? {
        TakerNeverDivides(m.terms, mid, p, o, pl, trade.value, taker, now);
      }
    }
  }

  /** An order is refused for its price exactly when it passes the guards of the call and is outside the window. */
  lemma WindowRefusesExactly(z: Sizes, s: State, caller: AccountId, mid: MarketId, p: NewOrderParams, placed: Option<Placement>, now: nat)
    ensures NewOrder(z, s, caller, mid, p, placed, now) == Err(OutsideTradingWindow) <==>
      && s.mode.Active? && ValidOrder(p)
      && mid in s.markets && s.markets[mid].state.Trading?
      && caller in s.accounts
      && OutsideWindow(s.markets[mid].terms, s.markets[mid].book, p)
  {
    hide Place, Covered, OutsideWindow;
    if ValidOrder(p) && mid in s.markets && caller in s.accounts {
      PlaceKeepsWindow(z, s.accounts, s.markets[mid], s.prevSequence + 1, caller, mid, p, placed, now, s.accounts[caller]);
    }
  }

  /** What is placed beside other orders is inside the window: a bid reaches its share of the best bid, an ask stays below its own. */
  lemma PlacedInsideWindow(z: Sizes, s: State, caller: AccountId, mid: MarketId, p: NewOrderParams, placed: Option<Placement>, now: nat)
    requires NewOrder(z, s, caller, mid, p, placed, now).Ok?
    requires !p.orderType.Market?
    ensures mid in s.markets && p.limitPrice.Some?
    ensures var m := s.markets[mid];
      && (p.side == Buy && m.book.bids != [] ==>
            m.terms.minBidBps * (m.book.bids[0].price * m.terms.lots.quote) <= p.limitPrice.value * 10_000)
      && (p.side == Sell && m.book.asks != [] ==>
            p.limitPrice.value * 10_000 < (m.terms.maxAskBps + 1) * (m.book.asks[0].price * m.terms.lots.quote))
  {
    hide NewOrder, SettleTrade, SettleTaker, EngineOk, NewBook, Covered, Prepare;
    var o, tr, taker := OrderUnfolds(z, s, caller, mid, p, placed, now);
    var m := s.markets[mid];
    PreparedOrder(m.terms, m.book, p, o);
    PrepareKeepsWindow(m.terms, m.book, p, o.sequence);
  }

  lemma PlaceDivides(z: Sizes, accounts: Accounts, m: VMarket, sequence: nat, caller: AccountId, mid: MarketId, p: NewOrderParams,
                     placed: Option<Placement>, now: nat, taker: VAccount)
    requires ValidOrder(p)
    ensures Place(z, accounts, m, sequence, caller, mid, p, placed, now, taker) == Err(DivisionByZero) <==> MeetsZeroPrice(m.book, p)
  {
    hide SettleTrade, SettleTaker, Prepare, EngineOk, NewBook, MeetsZeroPrice;
    PrepareDivides(m.terms, m.book, p, sequence);
    if Prepare(m.terms, m.book, p, sequence).Ok? && placed.Some? {
      var o, pl := Prepare(m.terms, m.book, p, sequence).value, placed.value;
      TradeNeverDivides(z, m.terms, mid, o.side, accounts, pl.fills, p.referrer, m.feesAccrued);
      var trade := SettleTrade(z, m.terms, mid, o.side, accounts, pl.fills, p.referrer, m.feesAccrued);
      if trade.Ok? {
        TakerNeverDivides(m.terms, mid, p, o, pl, trade.value, taker, now);
      }
    }
  }

  /**
   * An order panics on a division by zero exactly when it passes the guards of the call, is a limit order
   * whose price can be scaled, and the best order on its own side rests at a price of zero lots. While one
   * does, no limit order of that side gets through.
   */
  lemma ZeroPriceBlocks(z: Sizes, s: State, caller: AccountId, mid: MarketId, p: NewOrderParams, placed: Option<Placement>, now: nat)
    ensures NewOrder(z, s, caller, mid, p, placed, now) == Err(DivisionByZero) <==>
      && s.mode.Active? && ValidOrder(p)
      && mid in s.markets && s.markets[mid].state.Trading?
      && caller in s.accounts
      && MeetsZeroPrice(s.markets[mid].book, p)
    ensures mid in s.markets && RestsAtZero(s.markets[mid].book, p) ==> NewOrder(z, s, caller, mid, p, placed, now).Err?
  {
    hide Place, Covered;
    if ValidOrder(p) && mid in s.markets && caller in s.accounts {
      PlaceDivides(z, s.accounts, s.markets[mid], s.prevSequence + 1, caller, mid, p, placed, now, s.accounts[caller]);
      if RestsAtZero(s.markets[mid].book, p) {
        ZeroPriceFails(z, s.accounts, s.markets[mid], s.prevSequence + 1, caller, mid, p, placed, now, s.accounts[caller]);
      }
    }
  }

  lemma ZeroPriceFails(z: Sizes, accounts: Accounts, m: VMarket, sequence: nat, caller: AccountId, mid: MarketId, p: NewOrderParams,
                       placed: Option<Placement>, now: nat, taker: VAccount)
    requires ValidOrder(p)
    requires RestsAtZero(m.book, p)
    ensures Place(z, accounts, m, sequence, caller, mid, p, placed, now, taker).Err?
  {
    hide SettleTrade, SettleTaker, EngineOk, NewBook, QtyFor, Withhold, ToLots;
    assert Resting(m.book, p.side)[0].price * m.terms.lots.quote == 0;
  }

  // ---------- Swap chains ----------

  /** Every hop starts from exactly what the hop before it produced, in the token its market takes. */
  lemma {:induction false} ChainThreads(z: Sizes, s: State, signer: AccountId, token: Token, amount: nat, hops: seq<Hop>, k: nat)
    requires SwapChain(z, s, signer, token, amount, hops).Ok?
    requires k < |hops|
    ensures SwapChain(z, s, signer, token, amount, hops[..k]).Ok?
    ensures var before := SwapChain(z, s, signer, token, amount, hops[..k]).value;
      var after := SwapChain(z, s, signer, token, amount, hops[..k + 1]);
      && hops[k].market in before.state.markets
      && before.token == InputToken(before.state.markets[hops[k].market].terms, hops[k].side)
      && after.Ok?
      && after.value.token == OutputToken(before.state.markets[hops[k].market].terms, hops[k].side)
      && (hops[k].minOutput.Some? ==> after.value.amount >= hops[k].minOutput.value)
      && after == SwapHop(z, before.state, signer, before.token, before.amount, hops[k])
    decreases |hops|
  {
    hide SwapHop;
    var n := |hops| - 1;
    if k == n {
      assert hops[..n + 1] == hops;
      var c := SwapChain(z, s, signer, token, amount, hops[..n]).value;
      var o, tr := HopUnfolds(z, c.state, signer, c.token, c.amount, hops[n]);
    } else {
      ChainThreads(z, s, signer, token, amount, hops[..n], k);
      assert hops[..n][..k] == hops[..k] && hops[..n][..k + 1] == hops[..k + 1];
    }
  }

  /** A completed chain sends the last hop's output, at least its demanded minimum, to the sender. */
  lemma CompletedChainPays(z: Sizes, s: State, signer: AccountId, sender: AccountId, token: Token, amount: nat, hops: seq<Hop>)
    requires ExecuteSwaps(z, s, signer, sender, token, amount, hops).Ok?
    ensures hops != [] && hops[|hops| - 1].minOutput.Some?
    ensures SwapChain(z, AddHeld(s, token, amount), signer, token, amount, hops).Ok?
    ensures var c := SwapChain(z, AddHeld(s, token, amount), signer, token, amount, hops).value;
      && c.amount >= hops[|hops| - 1].minOutput.value
      && ExecuteSwaps(z, s, signer, sender, token, amount, hops).value.sends
         == s.sends + (if c.amount > 0 then [Send(c.token, sender, c.amount, InFlight)] else [])
      && ExecuteSwaps(z, s, signer, sender, token, amount, hops).value.prevSequence == s.prevSequence + |hops|
  {
    ChainThreads(z, AddHeld(s, token, amount), signer, token, amount, hops, |hops| - 1);
    assert hops[..|hops| - 1 + 1] == hops;
    ChainKeepsSends(z, AddHeld(s, token, amount), signer, token, amount, hops);
    hide SwapChain, SwapHop;
  }

  lemma {:induction false} ChainKeepsTerms(z: Sizes, s: State, signer: AccountId, token: Token, amount: nat, hops: seq<Hop>)
    requires SwapChain(z, s, signer, token, amount, hops).Ok?
    ensures var after := SwapChain(z, s, signer, token, amount, hops).value.state;
      && after.markets.Keys == s.markets.Keys
      && (forall mid :: mid in s.markets ==> after.markets[mid].terms == s.markets[mid].terms)
  {
    hide SwapHop;
    if hops != [] {
      var n := |hops| - 1;
      var c := SwapChain(z, s, signer, token, amount, hops[..n]).value;
      ChainKeepsTerms(z, s, signer, token, amount, hops[..n]);
      var o, tr := HopUnfolds(z, c.state, signer, c.token, c.amount, hops[n]);
      hide EngineOk, SettleTrade, SwapOrder, SwapOutput, SwapRefund, NewBook;
    }
  }

  /**
   * Which swaps pay out another token can be read off their last hop: its market and side name the token,
   * and a positive minimum makes sure of an amount.
   */
  lemma PaysOutTokenExactly(z: Sizes, s: State, signer: AccountId, sender: AccountId, token: Token, amount: nat, hops: seq<Hop>)
    requires ExecuteSwaps(z, s, signer, sender, token, amount, hops).Ok?
    ensures hops != []
    ensures var last, a := hops[|hops| - 1], ActSwap(signer, sender, token, amount, hops);
      && last.minOutput.Some? && last.market in s.markets
      && (PaysOutToken(z, s, a) ==> OutputToken(s.markets[last.market].terms, last.side) != NativeNear)
      && (last.minOutput.value > 0 ==>
            (PaysOutToken(z, s, a) <==> OutputToken(s.markets[last.market].terms, last.side) != NativeNear))
  {
    hide SwapChain, SwapHop, ExecuteSwaps, PaysOutToken;
    var start := AddHeld(s, token, amount);
    CompletedChainPays(z, s, signer, sender, token, amount, hops);
    ChainThreads(z, start, signer, token, amount, hops, |hops| - 1);
    ChainKeepsTerms(z, start, signer, token, amount, hops[..|hops| - 1]);
    SwapPayout(z, s, signer, sender, token, amount, hops);
    assert hops[..|hops| - 1 + 1] == hops;
  }

  // ---------- Withdrawals and their callbacks ----------

  /** A send moves forward only: it is delivered or bounced once, and closed once. */
  predicate Later(x: SendStatus, y: SendStatus) {
    || x == y
    || x.InFlight?
    || (x.Delivered? && y == Closed(None))
    || (x.Bounced? && y.Closed?)
  }

  ghost predicate SendsAdvance(xs: seq<Send>, ys: seq<Send>) {
    && |xs| <= |ys|
    && forall i :: 0 <= i < |xs| ==>
         && ys[i].token == xs[i].token && ys[i].receiver == xs[i].receiver && ys[i].amount == xs[i].amount
         && Later(xs[i].status, ys[i].status)
  }

  lemma OrderKeepsSends(z: Sizes, s: State, caller: AccountId, mid: MarketId, p: NewOrderParams, placed: Option<Placement>, now: nat)
    requires NewOrder(z, s, caller, mid, p, placed, now).Ok?
    ensures NewOrder(z, s, caller, mid, p, placed, now).value.sends == s.sends
    ensures NewOrder(z, s, caller, mid, p, placed, now).value.prevSequence == s.prevSequence + 1
  {
    hide NewOrder;
    var o, tr, taker := OrderUnfolds(z, s, caller, mid, p, placed, now);
  }

  lemma {:induction false} CancelEachKeepsSends(z: Sizes, s: State, mid: MarketId, orders: seq<Order>)
    requires CancelEach(z, s, mid, orders).Ok?
    ensures CancelEach(z, s, mid, orders).value.sends == s.sends
    ensures CancelEach(z, s, mid, orders).value.prevSequence == s.prevSequence
  {
    hide CancelOrder;
    if orders != [] {
      var n := |orders| - 1;
      CancelEachKeepsSends(z, s, mid, orders[..n]);
      CancelsKeepSends(z, CancelEach(z, s, mid, orders[..n]).value, orders[n].owner, mid, orders[n].id, []);
    }
  }

  lemma CancelsKeepSends(z: Sizes, s: State, account: AccountId, mid: MarketId, id: OrderId, ids: seq<OrderId>)
    ensures var r := CancelOrder(z, s, account, mid, id); r.Ok? ==> r.value.sends == s.sends && r.value.prevSequence == s.prevSequence
    ensures var r := CancelAll(z, s, account, mid, ids); r.Ok? ==> r.value.sends == s.sends && r.value.prevSequence == s.prevSequence
  {
    hide ProcessRefunds, TakeOrder, TakeOrders, Covered, Enumerates;
  }

  /** What a call may do to the sends: nothing, schedule one, settle the one it names, or close it. */
  ghost predicate SendsStep(s: State, a: Action, after: State) {
    || after.sends == s.sends
    || match a
       case ActTransfer(i, success) =>
         && i < |s.sends| && s.sends[i].status.InFlight?
         && after.sends == s.sends[i := s.sends[i].(status := if success then Delivered else Bounced)]
       case ActCallback(i) =>
         && i < |s.sends| && (s.sends[i].status.Delivered? || s.sends[i].status.Bounced?)
         && |after.sends| == |s.sends| && after.sends[i].status.Closed?
         && (s.sends[i].status.Delivered? ==> after.sends[i].status == Closed(None))
         && after.sends == s.sends[i := s.sends[i].(status := after.sends[i].status)]
       case _ =>
         && |after.sends| == |s.sends| + 1 && after.sends[..|s.sends|] == s.sends
         && after.sends[|s.sends|].status.InFlight?
  }

  lemma StepsSends(z: Sizes, s: State, a: Action)
    ensures SendsStep(s, a, Next(z, s, a))
  {
    hide NewOrder, SwapChain, CancelOrder, CancelAll, CancelEach, InternalDeposit, StorageAvailable, Covered, Locked, Snapshot, Pow10;
    if Apply(z, s, a).Ok? {
      match a
      case ActNewOrder(caller, mid, p, placed, now) => OrderKeepsSends(z, s, caller, mid, p, placed, now);
      case ActSwap(signer, sender, t, amount, hops) =>
        hide ExecuteSwaps;
        CompletedChainPays(z, s, signer, sender, t, amount, hops);
      case ActCancel(caller, mid, id) => CancelsKeepSends(z, s, caller, mid, id, []);
      case ActCancelAll(caller, mid, ids) => CancelsKeepSends(z, s, caller, mid, OrderId(0), ids);
      case ActClear(caller, mid, limit) => CancelEachKeepsSends(z, s, mid, Snapshot(s.markets[mid].book, limit));
      case _ =>
    }
  }

  lemma StepAdvancesSends(z: Sizes, s: State, a: Action)
    ensures SendsAdvance(s.sends, Next(z, s, a).sends)
  {
    hide Next;
    StepsSends(z, s, a);
    var n := |s.sends|;
    assert forall i :: 0 <= i < n && n <= |Next(z, s, a).sends| ==> Next(z, s, a).sends[i] == Next(z, s, a).sends[..n][i];
  }

  lemma SendsAdvanceChain(x: seq<Send>, y: seq<Send>, w: seq<Send>)
    requires SendsAdvance(x, y) && SendsAdvance(y, w)
    ensures SendsAdvance(x, w)
  {
  }

  lemma {:induction false} RunAdvancesSends(z: Sizes, s: State, actions: seq<Action>)
    ensures SendsAdvance(s.sends, Run(z, s, actions).sends)
  {
    hide Next;
    if actions != [] {
      var n := |actions| - 1;
      RunAdvancesSends(z, s, actions[..n]);
      StepAdvancesSends(z, Run(z, s, actions[..n]), actions[n]);
      SendsAdvanceChain(s.sends, Run(z, s, actions[..n]).sends, Run(z, s, actions).sends);
    }
  }

  /** A call that credits the amount of send `i` back: its callback, when the one it falls to can hold it. */
  ghost predicate Credits(z: Sizes, s: State, a: Action, i: nat) {
    && a == ActCallback(i)
    && i < |s.sends| && s.sends[i].status.Bounced?
    && CanHold(z, s.accounts, CreditTarget(s, s.sends[i].receiver), s.sends[i].token, s.sends[i].amount)
  }

  ghost function CreditCount(z: Sizes, s: State, actions: seq<Action>, i: nat): nat {
    if actions == [] then 0
    else
      CreditCount(z, s, actions[..|actions| - 1], i)
      + (if Credits(z, Run(z, s, actions[..|actions| - 1]), actions[|actions| - 1], i) then 1 else 0)
  }

  /** Over any run a send is credited back at most once, and exactly once when it ends as credited. */
  lemma {:induction false} CreditedAtMostOnce(z: Sizes, s: State, actions: seq<Action>, i: nat)
    requires i < |s.sends| ==> !s.sends[i].status.Closed?
    ensures var after := Run(z, s, actions);
      CreditCount(z, s, actions, i)
      == (if i < |after.sends| && after.sends[i].status.Closed? && after.sends[i].status.creditedTo.Some? then 1 else 0)
  {
    hide Next;
    if actions != [] {
      var n := |actions| - 1;
      var before := Run(z, s, actions[..n]);
      CreditedAtMostOnce(z, s, actions[..n], i);
      StepAdvancesSends(z, before, actions[n]);
      if i < |before.sends| && !before.sends[i].status.Closed? {
        OnlyCallbacksClose(z, before, actions[n], i);
      } else if i >= |before.sends| {
        NewSendsAreOpen(z, before, actions[n], i);
      }
    }
  }

  lemma OnlyCallbacksClose(z: Sizes, s: State, a: Action, i: nat)
    requires i < |s.sends| && !s.sends[i].status.Closed?
    ensures i < |Next(z, s, a).sends|
    ensures Next(z, s, a).sends[i].status.Closed? && Next(z, s, a).sends[i].status.creditedTo.Some? <==> Credits(z, s, a, i)
  {
    hide Next, CanHold;
    StepsSends(z, s, a);
    if |Next(z, s, a).sends| > |s.sends| {
      assert Next(z, s, a).sends[..|s.sends|][i] == s.sends[i];
    }
    if a == ActCallback(i) {
      CallbackCloses(z, s, i);
    }
  }

  /** The callback of a bounced send names the one it credits exactly when that one can hold the amount. */
  lemma CallbackCloses(z: Sizes, s: State, i: nat)
    requires i < |s.sends|
    ensures s.sends[i].status.Bounced? ==>
      var send, target := s.sends[i], CreditTarget(s, s.sends[i].receiver);
      Next(z, s, ActCallback(i)).sends[i].status
      == Closed(if CanHold(z, s.accounts, target, send.token, send.amount) then Some(target) else None)
    ensures s.sends[i].status.Delivered? ==> Next(z, s, ActCallback(i)).sends[i].status == Closed(None)
    ensures s.sends[i].status.InFlight? ==> Next(z, s, ActCallback(i)) == s
  {
    hide InternalDeposit, CanHold;
    DepositSucceedsExactly(z, s.accounts, CreditTarget(s, s.sends[i].receiver), s.sends[i].token, s.sends[i].amount);
  }

  lemma NewSendsAreOpen(z: Sizes, s: State, a: Action, i: nat)
    requires i >= |s.sends|
    ensures i < |Next(z, s, a).sends| ==> Next(z, s, a).sends[i].status.InFlight?
    ensures !Credits(z, s, a, i)
  {
    hide Next;
    StepsSends(z, s, a);
  }

  /** A delivered send is never credited back, whatever is called afterwards. */
  lemma DeliveredIsNeverCredited(z: Sizes, s: State, actions: seq<Action>, i: nat)
    requires i < |s.sends| && s.sends[i].status.Delivered?
    ensures CreditCount(z, s, actions, i) == 0
    ensures i < |Run(z, s, actions).sends|
    ensures Run(z, s, actions).sends[i].status in {Delivered, Closed(None)}
  {
    hide Run, CreditCount;
    RunAdvancesSends(z, s, actions);
    CreditedAtMostOnce(z, s, actions, i);
  }

  /**
   * The callback of a bounced send credits its amount in full, to the receiver if it is registered at that
   * moment and otherwise to the owner of the contract, exactly when that account can hold it; if not,
   * nobody is credited. No other balance moves.
   */
  lemma CallbackCreditsOnce(z: Sizes, s: State, i: nat, a: AccountId, token: Token)
    requires i < |s.sends| && s.sends[i].status.Bounced?
    ensures WithdrawCallback(z, s, i).Ok?
    ensures var send := s.sends[i];
      var target := if send.receiver in s.accounts then send.receiver else s.owner;
      var held := CanHold(z, s.accounts, target, send.token, send.amount);
      var after := WithdrawCallback(z, s, i).value;
      && after.sends[i].status == Closed(if held then Some(target) else None)
      && BalanceAt(after.accounts, a, token)
         == BalanceAt(s.accounts, a, token) + (if held && a == target && token == send.token then send.amount else 0)
      && after.accounts.Keys == s.accounts.Keys
  {
    hide InternalDeposit, CanHold;
    var send := s.sends[i];
    var target := CreditTarget(s, send.receiver);
    DepositSucceedsExactly(z, s.accounts, target, send.token, send.amount);
    if InternalDeposit(z, s.accounts, target, send.token, send.amount).Ok? {
      InternalDepositEffect(z, s.accounts, target, send.token, send.amount, token);
    }
  }

  // ---------- Order ids and lists over all runs ----------

  /** The counter never goes back, and an order placed now is numbered above everything before it. */
  lemma SequenceGrows(z: Sizes, s: State, caller: AccountId, mid: MarketId, p: NewOrderParams, pl: Placement, now: nat)
    requires Sound(z, s)
    requires NewOrder(z, s, caller, mid, p, Some(pl), now).Ok?
    ensures pl.id.sequence == NewOrder(z, s, caller, mid, p, Some(pl), now).value.prevSequence == s.prevSequence + 1
    ensures forall x, id :: x in s.markets && BookGet(s.markets[x].book, id).Some? ==> id.sequence < pl.id.sequence
  {
    hide NewOrder, BookGet;
    PlacedNumber(z, s, caller, mid, p, pl, now);
    forall x, id | x in s.markets && BookGet(s.markets[x].book, id).Some?
      ensures id.sequence <= s.prevSequence
    {
      assert MarketOk(s.accounts, x, s.markets[x], s.prevSequence);
    }
  }

  /** How many order numbers a successful call hands out: one for an order, one for each hop of a swap. */
  function Numbers(a: Action): nat {
    match a
    case ActNewOrder(_, _, _, _, _) => 1
    case ActSwap(_, _, _, _, hops) => |hops|
    case _ => 0
  }

  lemma StepsSequence(z: Sizes, s: State, a: Action)
    requires Apply(z, s, a).Ok?
    ensures Apply(z, s, a).value.prevSequence == s.prevSequence + Numbers(a)
  {
    hide NewOrder, ExecuteSwaps, SwapChain, CancelOrder, CancelAll, CancelEach, InternalDeposit, StorageAvailable, Covered, Locked, Snapshot, Pow10;
    match a
    case ActNewOrder(caller, mid, p, placed, now) => OrderKeepsSends(z, s, caller, mid, p, placed, now);
    case ActSwap(signer, sender, t, amount, hops) => CompletedChainPays(z, s, signer, sender, t, amount, hops);
    case ActCancel(caller, mid, id) => CancelsKeepSends(z, s, caller, mid, id, []);
    case ActCancelAll(caller, mid, ids) => CancelsKeepSends(z, s, caller, mid, OrderId(0), ids);
    case ActClear(caller, mid, limit) => CancelEachKeepsSends(z, s, mid, Snapshot(s.markets[mid].book, limit));
    case _ =>
  }

  lemma {:induction false} SequenceNeverFalls(z: Sizes, s: State, actions: seq<Action>)
    ensures Run(z, s, actions).prevSequence >= s.prevSequence
  {
    hide Apply;
    if actions != [] {
      var n := |actions| - 1;
      SequenceNeverFalls(z, s, actions[..n]);
      if Apply(z, Run(z, s, actions[..n]), actions[n]).Ok? {
        StepsSequence(z, Run(z, s, actions[..n]), actions[n]);
      }
    }
  }

  /** Of two orders, the one placed later has the larger number, in whatever markets and whatever happens in between. */
  lemma LaterOrdersAreNumberedHigher(z: Sizes, s: State, caller: AccountId, mid: MarketId, p: NewOrderParams, pl: Placement, now: nat,
                                     actions: seq<Action>,
                                     caller': AccountId, mid': MarketId, p': NewOrderParams, pl': Placement, now': nat)
    requires NewOrder(z, s, caller, mid, p, Some(pl), now).Ok?
    requires var between := Run(z, NewOrder(z, s, caller, mid, p, Some(pl), now).value, actions);
      NewOrder(z, between, caller', mid', p', Some(pl'), now').Ok?
    ensures pl.id.sequence < pl'.id.sequence
  {
    hide NewOrder, Run, EngineOk, SettleTrade, SettleTaker, Covered, NewBook, Prepare;
    var placed := NewOrder(z, s, caller, mid, p, Some(pl), now).value;
    var between := Run(z, placed, actions);
    PlacedNumber(z, s, caller, mid, p, pl, now);
    SequenceNeverFalls(z, placed, actions);
    PlacedNumber(z, between, caller', mid', p', pl', now');
  }

  lemma PlacedNumber(z: Sizes, s: State, caller: AccountId, mid: MarketId, p: NewOrderParams, pl: Placement, now: nat)
    requires NewOrder(z, s, caller, mid, p, Some(pl), now).Ok?
    ensures pl.id.sequence == NewOrder(z, s, caller, mid, p, Some(pl), now).value.prevSequence == s.prevSequence + 1
  {
    hide NewOrder, FillsOk, SettleTrade, SettleTaker, Covered, NewBook, Prepare;
    var o, tr, taker := OrderUnfolds(z, s, caller, mid, p, Some(pl), now);
  }

  lemma OrderIsOpen(b: Book, id: OrderId)
    requires BookOk(b)
    ensures BookGet(b, id).Some? ==> BookGet(b, id).value.openQty > 0
  {
    LookupHasId(b.asks, id);
    LookupHasId(b.bids, id);
  }

  /**
   * After any run: a book and the lists agree order by order, every order has lots left, ids are shared by no two markets, no
   * account keeps an empty list and none lists more orders than the market's cap.
   */
  lemma ListsOverRuns(z: Sizes, owner: AccountId, actions: seq<Action>, mid: MarketId, a: AccountId, id: OrderId, other: MarketId)
    ensures var s := Run(z, Deployed(owner), actions);
      && (mid in s.markets ==> (Lists(s.accounts, a, mid, id) <==> OwnerOf(s.markets[mid].book, id) == Some(a)))
      && (Lists(s.accounts, a, mid, id) ==> mid in s.markets)
      && (mid in s.markets && BookGet(s.markets[mid].book, id).Some? ==> BookGet(s.markets[mid].book, id).value.openQty > 0)
      && (Lists(s.accounts, a, mid, id) && mid != other && other in s.markets ==> BookGet(s.markets[other].book, id).None?)
      && (a in s.accounts && mid in s.accounts[a].openOrders ==>
            && mid in s.markets
            && 1 <= |s.accounts[a].openOrders[mid]| <= Max(1, s.markets[mid].terms.maxOrders))
  {
    var s := Run(z, Deployed(owner), actions);
    RunIsSound(z, owner, actions);
    hide Run, BookGet;
    if mid in s.markets {
      assert MarketOk(s.accounts, mid, s.markets[mid], s.prevSequence);
      assert Lists(s.accounts, a, mid, id) <==> OwnerOf(s.markets[mid].book, id) == Some(a);
      OrderIsOpen(s.markets[mid].book, id);
    }
    if a in s.accounts && mid in s.accounts[a].openOrders {
      ShapeOfOne(s.accounts, Caps(s.markets), a, mid);
    }
  }
}

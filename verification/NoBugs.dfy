/**
 * In a reachable state the accounting assertions, the lookups of makers and cancelled orders, the unchecked
 * subtractions and the two `unwrap`s of the order views cannot fail.
 */
module NoBugs {
  import opened Arithmetic
  import opened Exchange
  import opened Fees
  import opened Invariants
  import opened Ledger
  import opened MatchingEngine
  import opened OrderBook
  import opened OrderIndex
  import opened Orders
  import opened Outcomes
  import opened Reachability
  import opened Settlement
  import opened Solvency
  import opened StoredAccount
  import opened StoredMarket
  import opened Types

  lemma PrepareNeverBugs(t: Terms, b: Book, p: NewOrderParams, sequence: nat)
    requires ValidOrder(p)
    ensures var r := Prepare(t, b, p, sequence); r.Err? ==> !IsBug(r.error)
  {
    hide QtyFor, ToLots, FeeOn;
  }

  lemma MarketOf(z: Sizes, s: State, mid: MarketId)
    requires Sound(z, s) && mid in s.markets
    ensures BookOk(s.markets[mid].book) && IndexAgrees(s.accounts, mid, s.markets[mid].book)
    ensures MarketOk(s.accounts, mid, s.markets[mid], s.prevSequence)
  {
    hide BookOk, BidsFit, Numbered;
    assert MarketOk(s.accounts, mid, s.markets[mid], s.prevSequence);
  }

  lemma CoveredOf(z: Sizes, s: State, account: AccountId)
    requires Sound(z, s) && account in s.accounts
    ensures Covered(z, s.accounts[account])
  {
    hide Covered;
  }

  /** Once the engine has answered, neither the fee split nor the taker phase can hit a bug. */
  lemma MatchedNeverBugs(z: Sizes, t: Terms, mid: MarketId, caller: AccountId, p: NewOrderParams, o: EngineOrder, pl: Placement,
                         accounts: Accounts, b: Book, fees: nat, taker: VAccount, now: nat)
    requires ValidOrder(p)
    requires BookOk(b) && IndexAgrees(accounts, mid, b)
    requires Prepare(t, b, p, o.sequence) == Ok(o)
    requires EngineOk(t.lots, b, caller, o, pl)
    ensures var trade := SettleTrade(z, t, mid, o.side, accounts, pl.fills, p.referrer, fees);
      && (trade.Err? ==> !IsBug(trade.error))
      && (trade.Ok? ==>
            var r := SettleTaker(t, mid, p, o, pl, trade.value, taker, now);
            r.Err? ==> !IsBug(r.error))
  {
    FeeSplitNeverFails(z, t, mid, o.side, accounts, pl.fills, p.referrer, fees, caller, o.limitPrice, b);
    var trade := SettleTrade(z, t, mid, o.side, accounts, pl.fills, p.referrer, fees);
    if trade.Ok? {
      FeeSplitIsTotal(z, t, mid, o.side, accounts, pl.fills, p.referrer, fees);
      hide SettleTrade, SettleTaker, Prepare, EngineOk, BookOk, IndexAgrees, IsBug;
      TakerNeverBugs(t, b, mid, caller, p, o, pl, trade.value, taker, now);
    }
  }

  lemma OrderNeverBugs(z: Sizes, s: State, caller: AccountId, mid: MarketId, p: NewOrderParams, placed: Option<Placement>, now: nat)
    requires Sound(z, s)
    ensures var r := NewOrder(z, s, caller, mid, p, placed, now); r.Err? ==> !IsBug(r.error)
  {
    hide Prepare, EngineOk, SettleTrade, SettleTaker, NewBook, Covered, Sound, MarketOk, BookOk, IndexAgrees, ValidOrder;
    if ValidOrder(p) && mid in s.markets && caller in s.accounts {
      var m := s.markets[mid];
      MarketOf(z, s, mid);
      PrepareNeverBugs(m.terms, m.book, p, s.prevSequence + 1);
      var prepared := Prepare(m.terms, m.book, p, s.prevSequence + 1);
      if prepared.Ok? && placed.Some? && EngineOk(m.terms.lots, m.book, caller, prepared.value, placed.value) {
        PreparedSequence(m.terms, m.book, p, s.prevSequence + 1);
        MatchedNeverBugs(z, m.terms, mid, caller, p, prepared.value, placed.value, s.accounts, m.book, m.feesAccrued, s.accounts[caller], now);
      }
    }
  }

  /** Withholding is sufficient: the refund of a hop never underflows on either side. */
  lemma SwapRefundNeverUnderflows(t: Terms, b: Book, signer: AccountId, side: Side, amount: nat, o: EngineOrder, pl: Placement, tr: Trade)
    requires SwapOrder(t, side, amount, o.sequence) == Ok(o)
    requires EngineOk(t.lots, b, signer, o, pl)
    requires tr.quote == TotalQuote(pl.fills) && tr.base == TotalQty(pl.fills) * t.lots.base
    requires tr.fee == FeeOn(t.takerRate, tr.quote)
    ensures SwapOutput(side, tr).Ok? && SwapRefund(side, amount, tr).Ok?
  {
    FeeWithin(t.takerRate, tr.quote);
    if side == Buy {
      MarketBuyWithinSpend(t, b, signer, o, pl, amount);
    } else {
      NeverMoreThanAsked(t, b, signer, o, pl, amount);
      Distribute(TotalQty(pl.fills), pl.openQty, t.lots.base);
    }
  }

  lemma MatchedHopNeverBugs(z: Sizes, t: Terms, mid: MarketId, signer: AccountId, side: Side, amount: nat, o: EngineOrder, pl: Placement,
                            accounts: Accounts, b: Book, referrer: Option<AccountId>, fees: nat)
    requires BookOk(b) && IndexAgrees(accounts, mid, b)
    requires SwapOrder(t, side, amount, o.sequence) == Ok(o)
    requires EngineOk(t.lots, b, signer, o, pl)
    ensures var trade := SettleTrade(z, t, mid, side, accounts, pl.fills, referrer, fees);
      && (trade.Err? ==> !IsBug(trade.error))
      && (trade.Ok? ==> SwapOutput(side, trade.value).Ok? && SwapRefund(side, amount, trade.value).Ok?)
  {
    SwapOrderShape(t, side, amount, o.sequence);
    FeeSplitNeverFails(z, t, mid, side, accounts, pl.fills, referrer, fees, signer, o.limitPrice, b);
    var trade := SettleTrade(z, t, mid, side, accounts, pl.fills, referrer, fees);
    if trade.Ok? {
      FeeSplitIsTotal(z, t, mid, side, accounts, pl.fills, referrer, fees);
      hide SettleTrade, SwapOutput, SwapRefund, EngineOk, BookOk, IndexAgrees, IsBug, SwapOrder;
      SwapRefundNeverUnderflows(t, b, signer, side, amount, o, pl, trade.value);
    }
  }

  lemma HopNeverBugs(z: Sizes, s: State, signer: AccountId, token: Token, amount: nat, h: Hop)
    requires Sound(z, s)
    ensures var r := SwapHop(z, s, signer, token, amount, h); r.Err? ==> !IsBug(r.error)
  {
    hide EngineOk, SettleTrade, NewBook, SwapOutput, SwapRefund, Sound, MarketOk, BookOk, IndexAgrees;
    if h.market in s.markets {
      var m := s.markets[h.market];
      MarketOf(z, s, h.market);
      SwapOrderNeverBugs(m.terms, h.side, amount, s.prevSequence + 1);
      hide SwapOrder;
      var prepared := SwapOrder(m.terms, h.side, amount, s.prevSequence + 1);
      if prepared.Ok? && h.placed.Some? && EngineOk(m.terms.lots, m.book, signer, prepared.value, h.placed.value) {
        SwapOrderShape(m.terms, h.side, amount, s.prevSequence + 1);
        MatchedHopNeverBugs(z, m.terms, h.market, signer, h.side, amount, prepared.value, h.placed.value, s.accounts, m.book, h.referrer, m.feesAccrued);
      }
    }
  }

  lemma SwapOrderNeverBugs(t: Terms, side: Side, amount: nat, sequence: nat)
    ensures var r := SwapOrder(t, side, amount, sequence); r.Err? ==> !IsBug(r.error)
  {
  }

  lemma {:induction false} ChainNeverBugs(z: Sizes, s: State, signer: AccountId, token: Token, amount: nat, hops: seq<Hop>)
    requires Sound(z, s)
    ensures var r := SwapChain(z, s, signer, token, amount, hops); r.Err? ==> !IsBug(r.error)
  {
    hide SwapHop, Sound, IsBug;
    if hops != [] {
      var n := |hops| - 1;
      ChainNeverBugs(z, s, signer, token, amount, hops[..n]);
      if SwapChain(z, s, signer, token, amount, hops[..n]).Ok? {
        var c := SwapChain(z, s, signer, token, amount, hops[..n]).value;
        ChainKeepsSound(z, s, signer, token, amount, hops[..n]);
        HopNeverBugs(z, c.state, signer, c.token, c.amount, hops[n]);
      }
    }
  }

  lemma SwapsNeverBug(z: Sizes, s: State, signer: AccountId, sender: AccountId, token: Token, amount: nat, hops: seq<Hop>)
    requires Sound(z, s)
    ensures var r := ExecuteSwaps(z, s, signer, sender, token, amount, hops); r.Err? ==> !IsBug(r.error)
  {
    assert Sound(z, AddHeld(s, token, amount)) by {
      hide AllCovered, ShapesOk, MarketsOk, NoSharedIds, TotalStorage;
    }
    ChainNeverBugs(z, AddHeld(s, token, amount), signer, token, amount, hops);
    hide SwapChain, Sound;
  }

  // ---------- Cancels ----------

  /** A listed order is on the book, under the same owner: the "should never happen" branch never does. */
  lemma ListedIsOnBook(accounts: Accounts, account: AccountId, mid: MarketId, id: OrderId, b: Book)
    requires BookOk(b) && IndexAgrees(accounts, mid, b)
    requires account in accounts && Has(accounts[account], mid, id)
    ensures TakeOrder(b, id).Some?
    ensures var p := TakeOrder(b, id).value.1; p.order.owner == account && BookGet(b, id) == Some(p.order)
  {
    assert Lists(accounts, account, mid, id) <==> OwnerOf(b, id) == Some(account);
  }

  /** Taking distinct listed orders off the book succeeds and yields orders of that owner. */
  lemma {:induction false} TakeOrdersSucceeds(b: Book, ids: seq<OrderId>, owner: AccountId)
    requires BookOk(b)
    requires forall i :: 0 <= i < |ids| ==> OwnerOf(b, ids[i]) == Some(owner)
    requires forall i, j :: 0 <= i < j < |ids| ==> ids[i] != ids[j]
    ensures TakeOrders(b, ids).Ok?
    ensures |TakeOrders(b, ids).value.1| == |ids|
    ensures forall p :: p in TakeOrders(b, ids).value.1 ==> p.order.owner == owner
  {
    if ids != [] {
      var n := |ids| - 1;
      TakeOrdersSucceeds(b, ids[..n], owner);
      TakeOrdersFacts(b, ids[..n]);
      var c := TakeOrders(b, ids[..n]).value.0;
      assert OwnerOf(b, ids[n]) == Some(owner);
      assert ids[n] !in ids[..n];
      assert BookGet(c, ids[n]) == BookGet(b, ids[n]);
      hide Reduce, BookOk;
    }
  }

  lemma {:induction false} OwnRefundsNeverBug(t: Terms, mid: MarketId, owner: AccountId, a: VAccount, pending: seq<Pending>)
    requires forall p :: p in pending ==> p.order.owner == owner
    ensures var r := ProcessRefunds(t, mid, owner, a, pending); r.Err? ==> !IsBug(r.error)
  {
    if pending != [] {
      var n := |pending| - 1;
      OwnRefundsNeverBug(t, mid, owner, a, pending[..n]);
      assert pending[n] in pending;
      hide QuoteValue, UnitValue, RemoveOrderInfo;
    }
  }

  lemma CancelNeverBugs(z: Sizes, s: State, account: AccountId, mid: MarketId, id: OrderId)
    requires Sound(z, s)
    ensures var r := CancelOrder(z, s, account, mid, id); r.Err? ==> !IsBug(r.error)
  {
    hide ProcessRefunds, TakeOrder, Sound, MarketOk, Covered, RemoveOrderInfo, BookOk;
    if mid in s.markets && account in s.accounts && Has(s.accounts[account], mid, id) {
      var m := s.markets[mid];
      MarketOf(z, s, mid);
      ListedIsOnBook(s.accounts, account, mid, id, m.book);
      OwnRefundsNeverBug(m.terms, mid, account, RemoveOrderInfo(s.accounts[account], mid, id), [TakeOrder(m.book, id).value.1]);
    }
  }

  lemma CancelAllNeverBugs(z: Sizes, s: State, account: AccountId, mid: MarketId, ids: seq<OrderId>)
    requires Sound(z, s)
    ensures var r := CancelAll(z, s, account, mid, ids); r.Err? ==> !IsBug(r.error)
  {
    hide ProcessRefunds, TakeOrders, Sound, MarketOk, Covered, BookOk;
    if mid in s.markets && account in s.accounts && Enumerates(ids, ListedIds(s.accounts[account], mid)) {
      var m := s.markets[mid];
      ListedAreOwned(z, s, account, mid, ids);
      TakeOrdersSucceeds(m.book, ids, account);
      OwnRefundsNeverBug(m.terms, mid, account, RemoveAllOrderInfos(s.accounts[account], mid), TakeOrders(m.book, ids).value.1);
    }
  }

  lemma ListedAreOwned(z: Sizes, s: State, account: AccountId, mid: MarketId, ids: seq<OrderId>)
    requires Sound(z, s)
    requires mid in s.markets && account in s.accounts
    requires Enumerates(ids, ListedIds(s.accounts[account], mid))
    ensures BookOk(s.markets[mid].book)
    ensures forall i :: 0 <= i < |ids| ==> OwnerOf(s.markets[mid].book, ids[i]) == Some(account)
  {
    hide BookOk, BookGet, BidsFit;
    assert MarketOk(s.accounts, mid, s.markets[mid], s.prevSequence);
    forall i | 0 <= i < |ids|
      ensures OwnerOf(s.markets[mid].book, ids[i]) == Some(account)
    {
      assert ids[i] in ListedIds(s.accounts[account], mid);
      assert Lists(s.accounts, account, mid, ids[i]) <==> OwnerOf(s.markets[mid].book, ids[i]) == Some(account);
    }
  }

  lemma {:induction false} CancelEachNeverBugs(z: Sizes, s: State, mid: MarketId, orders: seq<Order>)
    requires Sound(z, s)
    ensures var r := CancelEach(z, s, mid, orders); r.Err? ==> !IsBug(r.error)
  {
    hide CancelOrder, Sound, IsBug;
    if orders != [] {
      var n := |orders| - 1;
      CancelEachNeverBugs(z, s, mid, orders[..n]);
      if CancelEach(z, s, mid, orders[..n]).Ok? {
        CancelEachKeepsSound(z, s, mid, orders[..n]);
        CancelNeverBugs(z, CancelEach(z, s, mid, orders[..n]).value, orders[n].owner, mid, orders[n].id);
      }
    }
  }

  // ---------- Storage deposits ----------

  /** A stored account's lock never exceeds its deposit, so the available part never underflows. */
  lemma AvailableNeverUnderflows(z: Sizes, a: VAccount)
    requires Covered(z, a)
    ensures StorageAvailable(z, a) == Ok(a.storageBalance - Locked(z, a))
  {
    SizeAtLeastAccount(z, a);
    hide BorshSize;
  }

  /** The lock does not depend on the deposit. */
  lemma RedepositCovers(z: Sizes, a: VAccount, deposit: nat)
    ensures Covered(z, a.(storageBalance := deposit)) <==> Locked(z, a) <= deposit
    ensures Locked(z, a) >= 0
  {
    SizeAtLeastAccount(z, a);
    assert BorshSize(z, a.(storageBalance := deposit)) == BorshSize(z, a);
  }

  /** A storage withdrawal within the available part passes its own save. */
  lemma PermittedStorageWithdrawSucceeds(z: Sizes, s: State, caller: AccountId, amount: Option<nat>)
    requires Sound(z, s)
    requires s.mode.Active? && caller in s.accounts
    ensures var a := s.accounts[caller];
      StorageWithdraw(z, s, caller, amount).Ok? <==> (amount.Some? ==> amount.value <= a.storageBalance - Locked(z, a))
    ensures var r := StorageWithdraw(z, s, caller, amount); r.Err? ==> r.error == InsufficientStorage
  {
    hide Sound, Covered, Locked, StorageAvailable, BorshSize;
    var a := s.accounts[caller];
    CoveredOf(z, s, caller);
    AvailableNeverUnderflows(z, a);
    var available := a.storageBalance - Locked(z, a);
    var taken := if amount.Some? then amount.value else available;
    RedepositCovers(z, a, 0);
    if taken <= available {
      RedepositCovers(z, a, a.storageBalance - taken);
    }
  }

  // ---------- Every call ----------

  lemma BalanceCallsNeverBug(z: Sizes, s: State, account: AccountId, t: Token, amount: nat)
    ensures DepositTokens(z, s, account, t, amount).Err? ==> !IsBug(DepositTokens(z, s, account, t, amount).error)
    ensures WithdrawTokens(z, s, account, t, amount).Err? ==> !IsBug(WithdrawTokens(z, s, account, t, amount).error)
  {
    hide Covered;
  }

  lemma StorageDepositNeverBugs(z: Sizes, s: State, account: AccountId, only: bool, amount: nat)
    ensures var r := StorageDeposit(z, s, account, only, amount); r.Err? ==> !IsBug(r.error)
  {
    hide Covered, Locked;
  }

  lemma CreateMarketNeverBugs(s: State, mid: MarketId, t: MarketTerms, decimals: nat)
    ensures var r := CreateMarket(s, mid, t, decimals); r.Err? ==> !IsBug(r.error)
  {
    hide Pow10;
  }

  /** From a sound state no call ends in an error that the code holds impossible. */
  lemma ApplyNeverBugs(z: Sizes, s: State, a: Action)
    requires Sound(z, s)
    ensures Apply(z, s, a).Err? ==> !IsBug(Apply(z, s, a).error)
  {
    hide NewOrder, ExecuteSwaps, CancelOrder, CancelAll, CancelEach, DepositTokens, WithdrawTokens, StorageDeposit,
         StorageWithdraw, CreateMarket, Sound, Snapshot, InternalDeposit;
    match a
    case ActNewOrder(caller, mid, p, placed, now) => OrderNeverBugs(z, s, caller, mid, p, placed, now);
    case ActSwap(signer, sender, t, amount, hops) => SwapsNeverBug(z, s, signer, sender, t, amount, hops);
    case ActCancel(caller, mid, id) => CancelNeverBugs(z, s, caller, mid, id);
    case ActCancelAll(caller, mid, ids) => CancelAllNeverBugs(z, s, caller, mid, ids);
    case ActClear(caller, mid, limit) =>
      if mid in s.markets {
        CancelEachNeverBugs(z, s, mid, Snapshot(s.markets[mid].book, limit));
      }
    case ActDeposit(account, t, amount) => BalanceCallsNeverBug(z, s, account, t, amount);
    case ActWithdraw(caller, t, amount) => BalanceCallsNeverBug(z, s, caller, t, amount);
    case ActTransfer(i, success) =>
    case ActCallback(i) =>
    case ActStorageDeposit(account, only, amount) => StorageDepositNeverBugs(z, s, account, only, amount);
    case ActStorageWithdraw(caller, amount) =>
      if s.mode.Active? && caller in s.accounts {
        PermittedStorageWithdrawSucceeds(z, s, caller, amount);
      } else {
        IdleStorageWithdraw(z, s, caller, amount);
      }
    case ActUnregister(caller) =>
    case ActCreateMarket(mid, t, decimals) => CreateMarketNeverBugs(s, mid, t, decimals);
    case ActSetMode(caller, mode) =>
    case ActSetMarketState(caller, mid, state) =>
  }

  lemma IdleStorageWithdraw(z: Sizes, s: State, caller: AccountId, amount: Option<nat>)
    requires !s.mode.Active? || caller !in s.accounts
    ensures StorageWithdraw(z, s, caller, amount).Err?
    ensures !IsBug(StorageWithdraw(z, s, caller, amount).error)
  {
  }

  /** Over every run from deployment, no call reaches a bug branch. */
  lemma RunsNeverBug(z: Sizes, owner: AccountId, actions: seq<Action>, a: Action)
    ensures var r := Apply(z, Run(z, Deployed(owner), actions), a); r.Err? ==> !IsBug(r.error)
  {
    hide Sound, Apply, IsBug;
    RunIsSound(z, owner, actions);
    ApplyNeverBugs(z, Run(z, Deployed(owner), actions), a);
  }

  /** The lookups of the order views: what an account lists is on the book, and what is on the book is listed. */
  lemma ViewLookupsNeverFail(z: Sizes, owner: AccountId, actions: seq<Action>, mid: MarketId, id: OrderId)
    requires mid in Run(z, Deployed(owner), actions).markets
    ensures var s := Run(z, Deployed(owner), actions);
      && (forall a :: a in s.accounts && Has(s.accounts[a], mid, id) ==>
            BookGet(s.markets[mid].book, id).Some? && BookGet(s.markets[mid].book, id).value.owner == a)
      && (BookGet(s.markets[mid].book, id).Some? ==>
            var a := BookGet(s.markets[mid].book, id).value.owner;
            a in s.accounts && Has(s.accounts[a], mid, id))
  {
    var s := Run(z, Deployed(owner), actions);
    RunIsSound(z, owner, actions);
    hide Run, BookGet, Has;
    assert MarketOk(s.accounts, mid, s.markets[mid], s.prevSequence);
    forall a | a in s.accounts && Has(s.accounts[a], mid, id)
      ensures BookGet(s.markets[mid].book, id).Some? && BookGet(s.markets[mid].book, id).value.owner == a
    {
      assert Lists(s.accounts, a, mid, id) <==> OwnerOf(s.markets[mid].book, id) == Some(a);
    }
    if BookGet(s.markets[mid].book, id).Some? {
      var a := BookGet(s.markets[mid].book, id).value.owner;
      assert Lists(s.accounts, a, mid, id) <==> OwnerOf(s.markets[mid].book, id) == Some(a);
    }
  }
}

/**
 * When a call goes through and exactly what it then changes: deposits, withdrawals, storage and markets; and
 * what the states of the contract and of a market stop.
 */
module Calls {
  import opened Arithmetic
  import opened Exchange
  import opened Ledger
  import opened MatchingEngine
  import opened OrderBook
  import opened Orders
  import opened Outcomes
  import opened Solvency
  import opened StoredAccount
  import opened StoredMarket
  import opened Types

  // ---------- Balances ----------

  /** A deposit goes through exactly when the account can hold it, and adds to that balance alone. */
  lemma DepositExactly(z: Sizes, s: State, account: AccountId, t: Token, amount: nat, a: AccountId, token: Token)
    ensures DepositTokens(z, s, account, t, amount).Ok? <==> s.mode.Active? && CanHold(z, s.accounts, account, t, amount)
    ensures var r := DepositTokens(z, s, account, t, amount);
      r.Ok? ==>
        && r.value == s.(accounts := r.value.accounts, held := r.value.held)
        && BalanceAt(r.value.accounts, a, token) == BalanceAt(s.accounts, a, token) + (if a == account && token == t then amount else 0)
        && Held(r.value, token) == Held(s, token) + (if token == t then amount else 0)
        && r.value.accounts.Keys == s.accounts.Keys
  {
    hide InternalDeposit, CanHold, Covered, BalanceAt;
    DepositSucceedsExactly(z, s.accounts, account, t, amount);
    if InternalDeposit(z, s.accounts, account, t, amount).Ok? {
      InternalDepositEffect(z, s.accounts, account, t, amount, token);
    }
  }

  /**
   * A withdrawal goes through exactly when there is an entry that large, takes from that balance alone and
   * schedules one transfer to the caller.
   */
  lemma WithdrawExactly(z: Sizes, s: State, caller: AccountId, t: Token, amount: nat, a: AccountId, token: Token)
    requires caller in s.accounts ==> Covered(z, s.accounts[caller])
    ensures WithdrawTokens(z, s, caller, t, amount).Ok? <==>
      && s.mode.Active? && amount > 0
      && caller in s.accounts && t in s.accounts[caller].balances && amount <= s.accounts[caller].balances[t]
    ensures var r := WithdrawTokens(z, s, caller, t, amount);
      r.Ok? ==>
        && r.value == s.(accounts := r.value.accounts, held := r.value.held, sends := s.sends + [Send(t, caller, amount, InFlight)])
        && BalanceAt(r.value.accounts, a, token) == BalanceAt(s.accounts, a, token) - (if a == caller && token == t then amount else 0)
        && Held(r.value, token) == Held(s, token) + (if token == NativeNear then 1 else 0)
        && r.value.accounts.Keys == s.accounts.Keys
  {
    hide Covered, Withdraw, BorshSize, Balance;
    if caller in s.accounts {
      BalancesMoveExactly(s.accounts[caller], t, amount);
      if Withdraw(s.accounts[caller], t, amount).Ok? {
        WithdrawSize(z, s.accounts[caller], t, amount);
        WithdrawEffect(s.accounts[caller], t, amount, token);
        SmallerIsCovered(z, s.accounts[caller], Withdraw(s.accounts[caller], t, amount).value);
      }
    }
  }

  /** A transfer settles once, with its own amount: delivered it leaves the contract, bounced it waits for its callback. */
  lemma TransferExactly(s: State, i: nat, success: bool, token: Token)
    ensures TransferSettles(s, i, success).Ok? <==> i < |s.sends| && s.sends[i].status.InFlight?
    ensures TransferSettles(s, i, success).Ok? ==>
      var after, send := TransferSettles(s, i, success).value, s.sends[i];
      && after == s.(held := after.held, sends := s.sends[i := send.(status := if success then Delivered else Bounced)])
      && Held(after, token) == Held(s, token)
           - (if success && token == send.token then send.amount else 0)
           - (if success && token == NativeNear && send.token != NativeNear then 1 else 0)
  {
  }

  // ---------- Storage ----------

  /** The price of an account with nothing in it. */
  function Minimum(z: Sizes): nat {
    (134 + z.mapOverhead) * z.byteCost
  }

  lemma EmptyLock(z: Sizes, deposit: nat)
    ensures Locked(z, EMPTY_ACCOUNT) == Minimum(z)
    ensures Covered(z, EMPTY_ACCOUNT.(storageBalance := deposit)) <==> Minimum(z) <= deposit
  {
    EmptySize(z, EMPTY_ACCOUNT);
    EmptySize(z, EMPTY_ACCOUNT.(storageBalance := deposit));
  }

  /**
   * The four cases of a storage deposit. A registered account asked only to register gets everything back;
   * otherwise it adds the amount to its deposit. A new account is refused below the minimum, keeps exactly
   * the minimum if it only registers, and keeps all of the amount if not.
   */
  lemma StorageDepositExactly(z: Sizes, s: State, account: AccountId, only: bool, amount: nat)
    requires s.mode.Active?
    ensures var r := StorageDeposit(z, s, account, only, amount);
      if account in s.accounts then
        var a := s.accounts[account];
        var more := a.(storageBalance := a.storageBalance + amount);
        if only && amount > 0 then r == Ok(s)
        else
          && (r.Ok? <==> a.storageBalance + amount < TWO_128 && Covered(z, more))
          && (r.Ok? ==> r.value == s.(accounts := s.accounts[account := more], storageHeld := s.storageHeld + amount))
      else if amount < Minimum(z) then r == Err(InsufficientStorage)
      else
        var kept := if only then Minimum(z) else amount;
        r == Ok(s.(accounts := s.accounts[account := VAccount(map[], map[], kept)], storageHeld := s.storageHeld + kept))
  {
    hide Covered, Locked, Minimum;
    EmptyLock(z, amount);
    EmptyLock(z, Minimum(z));
  }

  /** A storage withdrawal pays out what was asked for, or all that is not locked, and takes it from the deposit. */
  lemma StorageWithdrawExactly(z: Sizes, s: State, caller: AccountId, amount: Option<nat>)
    requires StorageWithdraw(z, s, caller, amount).Ok?
    requires caller in s.accounts && Covered(z, s.accounts[caller])
    ensures var a := s.accounts[caller];
      var taken := if amount.Some? then amount.value else a.storageBalance - Locked(z, a);
      var after := StorageWithdraw(z, s, caller, amount).value;
      && 0 <= taken <= a.storageBalance
      && after.accounts == s.accounts[caller := a.(storageBalance := a.storageBalance - taken)]
      && after == TakeYocto(s.(accounts := after.accounts, storageHeld := s.storageHeld - taken))
  {
    var a := s.accounts[caller];
    SizeAtLeastAccount(z, a);
    hide Covered, Locked, BorshSize;
    assert s.accounts[caller := a] == s.accounts;
  }

  /** An account is unregistered exactly when it has neither balances nor orders, zero entries included. */
  lemma UnregisterExactly(s: State, caller: AccountId)
    ensures StorageUnregister(s, caller).Ok? <==>
      && s.mode.Active? && caller in s.accounts
      && s.accounts[caller].balances.Keys == {} && s.accounts[caller].openOrders.Keys == {}
    ensures StorageUnregister(s, caller).Ok? ==>
      StorageUnregister(s, caller).value
      == TakeYocto(s.(accounts := s.accounts - {caller}, storageHeld := s.storageHeld - s.accounts[caller].storageBalance))
  {
    if caller in s.accounts {
      var a := s.accounts[caller];
      assert a.balances == map[] <==> a.balances.Keys == {};
      assert a.openOrders == map[] <==> a.openOrders.Keys == {};
    }
  }

  // ---------- Markets ----------

  /**
   * A market is created exactly when it is new, trades two different tokens, pays makers a smaller rate than
   * it takes (or nothing for either), and its lots are one or positive multiples of ten.
   */
  lemma CreateMarketExactly(s: State, mid: MarketId, t: MarketTerms, decimals: nat)
    requires t.lots.base < TWO_128 && t.lots.quote < TWO_128 && t.takerRate <= 255
    requires t.lots.denomination == Pow10(decimals) < TWO_128
    ensures CreateMarket(s, mid, t, decimals).Ok? <==>
      && s.mode.Active? && mid !in s.markets
      && t.baseToken != t.quoteToken
      && (t.makerRate < t.takerRate || t.makerRate + t.takerRate == 0)
      && (t.lots.base == 1 || (t.lots.base > 0 && t.lots.base % 10 == 0))
      && (t.lots.quote == 1 || (t.lots.quote > 0 && t.lots.quote % 10 == 0))
    ensures CreateMarket(s, mid, t, decimals).Ok? ==>
      && TermsOk(t)
      && CreateMarket(s, mid, t, decimals).value == s.(markets := s.markets[mid := VMarket(t, Trading, Book([], []), 0)])
  {
    PositiveDenomination(decimals);
    hide Pow10;
  }

  lemma {:induction false} PositiveDenomination(decimals: nat)
    ensures Pow10(decimals) >= 1
  {
    if decimals > 0 {
      PositiveDenomination(decimals - 1);
    }
  }

  /** No hop goes through a market that is not trading, and no cancel through one that is neither trading nor closing. */
  lemma MarketStateStops(z: Sizes, s: State, mid: MarketId, caller: AccountId, p: NewOrderParams, placed: Option<Placement>, now: nat,
                         id: OrderId, ids: seq<OrderId>, limit: Option<nat>, token: Token, amount: nat, h: Hop)
    requires mid in s.markets
    ensures !s.markets[mid].state.Trading? ==>
      && NewOrder(z, s, caller, mid, p, placed, now).Err?
      && (h.market == mid ==> SwapHop(z, s, caller, token, amount, h).Err?)
    ensures s.markets[mid].state.Halted? || s.markets[mid].state.Uninitialized? ==>
      && CancelOrder(z, s, caller, mid, id) == Err(CannotCancel)
      && CancelAll(z, s, caller, mid, ids) == Err(CannotCancel)
      && ClearOrderbook(z, s, mid, limit) == Err(CannotCancel)
  {
    hide Place, Swap, ProcessRefunds, TakeOrder, TakeOrders, Covered, Enumerates;
  }

  lemma {:induction false} ChainLeavesMarket(z: Sizes, s: State, signer: AccountId, token: Token, amount: nat, hops: seq<Hop>, mid: MarketId)
    requires mid in s.markets && !s.markets[mid].state.Trading?
    requires SwapChain(z, s, signer, token, amount, hops).Ok?
    ensures var after := SwapChain(z, s, signer, token, amount, hops).value.state;
      mid in after.markets && after.markets[mid] == s.markets[mid]
  {
    hide SwapHop;
    if hops != [] {
      var n := |hops| - 1;
      var c := SwapChain(z, s, signer, token, amount, hops[..n]).value;
      ChainLeavesMarket(z, s, signer, token, amount, hops[..n], mid);
      HopLeavesMarket(z, c.state, signer, c.token, c.amount, hops[n], mid);
    }
  }

  lemma HopLeavesMarket(z: Sizes, s: State, signer: AccountId, token: Token, amount: nat, h: Hop, mid: MarketId)
    requires mid in s.markets && !s.markets[mid].state.Trading?
    requires SwapHop(z, s, signer, token, amount, h).Ok?
    ensures var after := SwapHop(z, s, signer, token, amount, h).value.state;
      mid in after.markets && after.markets[mid] == s.markets[mid]
  {
    hide Swap;
  }

  lemma CancelLeavesMarket(z: Sizes, s: State, account: AccountId, market: MarketId, id: OrderId, ids: seq<OrderId>, mid: MarketId)
    requires mid in s.markets && !CanCancel(s.markets[mid])
    ensures var r := CancelOrder(z, s, account, market, id); r.Ok? ==> mid in r.value.markets && r.value.markets[mid] == s.markets[mid]
    ensures var r := CancelAll(z, s, account, market, ids); r.Ok? ==> mid in r.value.markets && r.value.markets[mid] == s.markets[mid]
  {
    hide ProcessRefunds, TakeOrder, TakeOrders, Covered, Enumerates;
  }

  lemma {:induction false} CancelEachLeavesMarket(z: Sizes, s: State, market: MarketId, orders: seq<Order>, mid: MarketId)
    requires mid in s.markets && !CanCancel(s.markets[mid])
    requires CancelEach(z, s, market, orders).Ok?
    ensures var after := CancelEach(z, s, market, orders).value; mid in after.markets && after.markets[mid] == s.markets[mid]
  {
    hide CancelOrder;
    if orders != [] {
      var n := |orders| - 1;
      CancelEachLeavesMarket(z, s, market, orders[..n], mid);
      CancelLeavesMarket(z, CancelEach(z, s, market, orders[..n]).value, orders[n].owner, market, orders[n].id, [], mid);
    }
  }

  lemma OrderLeavesMarket(z: Sizes, s: State, caller: AccountId, market: MarketId, p: NewOrderParams, placed: Option<Placement>, now: nat,
                          mid: MarketId)
    requires mid in s.markets && !s.markets[mid].state.Trading?
    requires NewOrder(z, s, caller, market, p, placed, now).Ok?
    ensures var after := NewOrder(z, s, caller, market, p, placed, now).value; mid in after.markets && after.markets[mid] == s.markets[mid]
  {
    hide Place, Covered;
  }

  /** Nothing but a new state from the owner touches a halted market: neither its book nor its fees. */
  lemma HaltedMarketStandsStill(z: Sizes, s: State, a: Action, mid: MarketId)
    requires mid in s.markets && (s.markets[mid].state.Halted? || s.markets[mid].state.Uninitialized?)
    ensures mid in Next(z, s, a).markets
    ensures Next(z, s, a).markets[mid] == s.markets[mid]
      || (a.ActSetMarketState? && a.market == mid && a.caller == s.owner
          && Next(z, s, a).markets[mid] == s.markets[mid].(state := a.marketState))
  {
    hide NewOrder, SwapChain, CancelOrder, CancelAll, CancelEach, InternalDeposit, StorageAvailable, Covered, Locked, Snapshot, Pow10;
    if Apply(z, s, a).Ok? {
      match a
      case ActNewOrder(caller, market, p, placed, now) => OrderLeavesMarket(z, s, caller, market, p, placed, now, mid);
      case ActSwap(signer, sender, t, amount, hops) => ChainLeavesMarket(z, AddHeld(s, t, amount), signer, t, amount, hops, mid);
      case ActCancel(caller, market, id) => CancelLeavesMarket(z, s, caller, market, id, [], mid);
      case ActCancelAll(caller, market, ids) => CancelLeavesMarket(z, s, caller, market, OrderId(0), ids, mid);
      case ActClear(caller, market, limit) => CancelEachLeavesMarket(z, s, market, Snapshot(s.markets[market].book, limit), mid);
      case _ =>
    }
  }

  // ---------- The contract ----------

  /**
   * Who may call what, and when. Orders, swaps, deposits, withdrawals, storage and new markets need an active
   * contract, and so does cancelling all; a single cancel only a contract that is not paused; clearing a book
   * and setting states the owner, in any state of the contract.
   */
  lemma CallsNeed(z: Sizes, s: State, a: Action)
    requires Apply(z, s, a).Ok?
    ensures match a
      case ActCancel(_, _, _) => s.mode.Active? || s.mode.CancelOnly?
      case ActClear(caller, _, _) => caller == s.owner
      case ActSetMode(caller, _) => caller == s.owner
      case ActSetMarketState(caller, _, _) => caller == s.owner
      case ActTransfer(_, _) => true
      case ActCallback(_) => true
      case _ => s.mode.Active?
  {
    hide Place, SwapChain, CancelOrder, CancelAll, CancelEach, InternalDeposit, StorageAvailable, Covered, Locked, Snapshot, Pow10;
  }

  /** An order that goes through asks for something, at a price and within a limit that are positive where given. */
  lemma OrdersNeed(z: Sizes, s: State, caller: AccountId, mid: MarketId, p: NewOrderParams, placed: Option<Placement>, now: nat)
    requires NewOrder(z, s, caller, mid, p, placed, now).Ok?
    ensures p.quantity > 0
    ensures p.limitPrice.Some? ==> p.limitPrice.value > 0
    ensures p.maxSpend.Some? ==> p.maxSpend.value > 0
    ensures caller in s.accounts && mid in s.markets && s.markets[mid].state.Trading?
  {
    hide Place, Covered;
  }

  /** The owner sets the state of the contract and of a market, and nothing else with it. */
  lemma OwnerSets(z: Sizes, s: State, caller: AccountId, mid: MarketId, mode: ContractState, state: MarketState)
    ensures Apply(z, s, ActSetMode(caller, mode)) == if caller == s.owner then Ok(s.(mode := mode)) else Err(NotOwner)
    ensures caller == s.owner && mid in s.markets ==>
      Apply(z, s, ActSetMarketState(caller, mid, state)) == Ok(s.(markets := s.markets[mid := s.markets[mid].(state := state)]))
  {
  }
}

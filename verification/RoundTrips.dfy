/** Calls that undo one another. */
module RoundTrips {
  import opened Exchange
  import opened Invariants
  import opened Ledger
  import opened NoBugs
  import opened OrderBook
  import opened Outcomes
  import opened Reachability
  import opened StoredAccount
  import opened Types

  /** Registering and unregistering gives the deposit back and leaves no trace but the yocto attached. */
  lemma RegisterThenUnregister(z: Sizes, s: State, account: AccountId, only: bool, amount: nat)
    requires account !in s.accounts
    requires StorageDeposit(z, s, account, only, amount).Ok?
    ensures StorageUnregister(StorageDeposit(z, s, account, only, amount).value, account) == Ok(TakeYocto(s))
  {
    hide Covered, Locked;
    var after := StorageDeposit(z, s, account, only, amount).value;
    assert after.accounts - {account} == s.accounts;
  }

  /** An amount put on an account and taken off again. */
  lemma DepositThenTake(z: Sizes, a: VAccount, t: Token, amount: nat)
    requires amount > 0
    requires Deposit(a, t, amount).Ok? && Covered(z, Deposit(a, t, amount).value)
    ensures var b := Withdraw(Deposit(a, t, amount).value, t, amount);
      && b.Ok? && Covered(z, b.value)
      && ((t in a.balances ==> a.balances[t] > 0) ==> b.value == a)
      && (forall u :: Balance(b.value, u) == Balance(a, u))
      && b.value.openOrders == a.openOrders && b.value.storageBalance == a.storageBalance
  {
    hide Covered, BorshSize;
    var c := Deposit(a, t, amount).value;
    var b := Withdraw(c, t, amount).value;
    WithdrawSize(z, c, t, amount);
    SmallerIsCovered(z, c, b);
    if t !in a.balances {
      assert b.balances == a.balances;
    } else if a.balances[t] > 0 {
      assert b.balances == a.balances;
    }
  }

  /**
   * What is deposited can be withdrawn at once, and every balance is as before. An entry that held zero
   * is the one thing that does not come back.
   */
  lemma DepositThenWithdraw(z: Sizes, s: State, account: AccountId, t: Token, amount: nat)
    requires amount > 0
    requires DepositTokens(z, s, account, t, amount).Ok?
    ensures account in s.accounts
    ensures var r := WithdrawTokens(z, DepositTokens(z, s, account, t, amount).value, account, t, amount);
      && r.Ok?
      && (forall a, u :: BalanceAt(r.value.accounts, a, u) == BalanceAt(s.accounts, a, u))
      && ((t in s.accounts[account].balances ==> s.accounts[account].balances[t] > 0) ==>
            r.value == Schedule(TakeYocto(AddHeld(s, t, amount)), account, t, amount))
  {
    hide Covered, Deposit, Withdraw;
    var a := s.accounts[account];
    DepositThenTake(z, a, t, amount);
    var c := Deposit(a, t, amount).value;
    var b := Withdraw(c, t, amount).value;
    assert s.accounts[account := c][account := b] == s.accounts[account := b];
    if b == a {
      assert s.accounts[account := a] == s.accounts;
    }
  }

  /** An amount taken off an account and put back. */
  lemma TakeThenDeposit(a: VAccount, t: Token, amount: nat)
    requires Withdraw(a, t, amount).Ok?
    ensures Deposit(Withdraw(a, t, amount).value, t, amount) == Ok(a)
  {
    var b := Withdraw(a, t, amount).value;
    assert b.balances[t := a.balances[t]] == a.balances;
  }

  /**
   * A withdrawal whose transfer bounces is undone completely: the callback cannot fail, it credits the
   * caller, and apart from the closed send the state is the one before.
   */
  lemma BouncedWithdrawalIsUndone(z: Sizes, s: State, caller: AccountId, t: Token, amount: nat)
    requires WithdrawTokens(z, s, caller, t, amount).Ok?
    requires Covered(z, s.accounts[caller])
    ensures var bounced := TransferSettles(WithdrawTokens(z, s, caller, t, amount).value, |s.sends|, false);
      && bounced.Ok?
      && WithdrawCallback(z, bounced.value, |s.sends|)
         == Ok(TakeYocto(s).(sends := s.sends + [Send(t, caller, amount, Closed(Some(caller)))]))
  {
    hide Covered, Deposit, Withdraw;
    var n := |s.sends|;
    var a := s.accounts[caller];
    var b := Withdraw(a, t, amount).value;
    var w := WithdrawTokens(z, s, caller, t, amount).value;
    TakeThenDeposit(a, t, amount);
    assert w.accounts[caller := a] == s.accounts;
    var send := Send(t, caller, amount, Bounced);
    assert w.sends[n := send] == s.sends + [send];
    assert (s.sends + [send])[n := send.(status := Closed(Some(caller)))] == s.sends + [send.(status := Closed(Some(caller)))];
  }

  /** So it is after any run from deployment. */
  lemma BouncedWithdrawalIsUndoneOverRuns(z: Sizes, owner: AccountId, actions: seq<Action>, caller: AccountId, t: Token, amount: nat)
    requires WithdrawTokens(z, Run(z, Deployed(owner), actions), caller, t, amount).Ok?
    ensures var s := Run(z, Deployed(owner), actions);
      var bounced := TransferSettles(WithdrawTokens(z, s, caller, t, amount).value, |s.sends|, false);
      && bounced.Ok?
      && WithdrawCallback(z, bounced.value, |s.sends|)
         == Ok(TakeYocto(s).(sends := s.sends + [Send(t, caller, amount, Closed(Some(caller)))]))
  {
    hide Run, Sound, TransferSettles, WithdrawCallback;
    var s := Run(z, Deployed(owner), actions);
    RunIsSound(z, owner, actions);
    CoveredOf(z, s, caller);
    BouncedWithdrawalIsUndone(z, s, caller, t, amount);
  }
}

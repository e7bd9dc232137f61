/** Totals over all accounts, and saving an account. */
module Ledger {
  import opened Outcomes
  import opened StoredAccount
  import opened Sums
  import opened Types

  type Accounts = map<AccountId, VAccount>

  /** Saving fails when the account's storage deposit does not cover its size. */
  ghost function Save(z: Sizes, accounts: Accounts, id: AccountId, a: VAccount): Result<Accounts> {
    if Covered(z, a) then Ok(accounts[id := a]) else Err(InsufficientStorage)
  }

  function BalanceAt(accounts: Accounts, id: AccountId, t: Token): nat {
    if id in accounts then Balance(accounts[id], t) else 0
  }

  ghost function BalancesOf(accounts: Accounts, t: Token): map<AccountId, int> {
    map id | id in accounts :: Balance(accounts[id], t)
  }

  ghost function TotalBalance(accounts: Accounts, t: Token): int {
    Sum(BalancesOf(accounts, t))
  }

  lemma TotalBalanceUpdate(accounts: Accounts, id: AccountId, a: VAccount, t: Token)
    ensures TotalBalance(accounts[id := a], t) == TotalBalance(accounts, t) - BalanceAt(accounts, id, t) + Balance(a, t)
  {
    SumUpdate(BalancesOf(accounts, t), id, Balance(a, t));
    assert BalancesOf(accounts[id := a], t) == BalancesOf(accounts, t)[id := Balance(a, t)];
  }

  lemma TotalBalanceCovers(accounts: Accounts, id: AccountId, t: Token)
    ensures 0 <= BalanceAt(accounts, id, t) <= TotalBalance(accounts, t)
  {
    SumNonNegative(BalancesOf(accounts, t));
    if id in accounts {
      SumBounds(BalancesOf(accounts, t), id);
    }
  }

  lemma TotalBalanceRemove(accounts: Accounts, id: AccountId, t: Token)
    requires id in accounts
    ensures TotalBalance(accounts - {id}, t) == TotalBalance(accounts, t) - Balance(accounts[id], t)
  {
    SumPick(BalancesOf(accounts, t), id);
    assert BalancesOf(accounts - {id}, t) == BalancesOf(accounts, t) - {id};
  }

  ghost function StorageOf(accounts: Accounts): map<AccountId, int> {
    map id | id in accounts :: accounts[id].storageBalance
  }

  ghost function TotalStorage(accounts: Accounts): int {
    Sum(StorageOf(accounts))
  }

  lemma TotalStorageUpdate(accounts: Accounts, id: AccountId, a: VAccount)
    ensures TotalStorage(accounts[id := a])
         == TotalStorage(accounts) - (if id in accounts then accounts[id].storageBalance else 0) + a.storageBalance
  {
    SumUpdate(StorageOf(accounts), id, a.storageBalance);
    assert StorageOf(accounts[id := a]) == StorageOf(accounts)[id := a.storageBalance];
  }

  lemma TotalStorageRemove(accounts: Accounts, id: AccountId)
    requires id in accounts
    ensures TotalStorage(accounts - {id}) == TotalStorage(accounts) - accounts[id].storageBalance
  {
    SumPick(StorageOf(accounts), id);
    assert StorageOf(accounts - {id}) == StorageOf(accounts) - {id};
  }

  /** The same accounts are registered, with the same storage deposits. */
  ghost predicate SameDeposits(x: Accounts, y: Accounts) {
    && x.Keys == y.Keys
    && forall id :: id in x ==> x[id].storageBalance == y[id].storageBalance
  }

  lemma SameDepositsTotal(x: Accounts, y: Accounts)
    requires SameDeposits(x, y)
    ensures TotalStorage(x) == TotalStorage(y)
  {
    assert StorageOf(x) == StorageOf(y);
  }
}

/** The agreement between a market's book and the open-order lists of the accounts. */
module OrderIndex {
  import opened Ledger
  import opened OrderBook
  import opened Outcomes
  import opened StoredAccount
  import opened Types

  ghost predicate Lists(accounts: Accounts, a: AccountId, mid: MarketId, id: OrderId) {
    a in accounts && Has(accounts[a], mid, id)
  }

  function BookGet(b: Book, id: OrderId): Option<Order> {
    var ask := Lookup(b.asks, id);
    if ask.Some? then ask else Lookup(b.bids, id)
  }

  function OwnerOf(b: Book, id: OrderId): Option<AccountId> {
    match BookGet(b, id)
    case Some(o) => Some(o.owner)
    case None => None
  }

  /** An order is on the book with owner `a` exactly when `a` is registered and lists it. */
  ghost predicate IndexAgrees(accounts: Accounts, mid: MarketId, b: Book) {
    forall a, id :: Lists(accounts, a, mid, id) <==> OwnerOf(b, id) == Some(a)
  }

  /** Order ids do not repeat, neither within a side nor across sides, and no order is used up. */
  ghost predicate BookOk(b: Book) {
    && Distinct(b.bids)
    && Distinct(b.asks)
    && AllOpen(b.bids)
    && AllOpen(b.asks)
    && forall id :: Lookup(b.bids, id).None? || Lookup(b.asks, id).None?
  }

  /** Only the listings of one market may differ. */
  ghost predicate SameElsewhere(x: Accounts, y: Accounts, mid: MarketId) {
    forall a, other, id :: other != mid ==> (Lists(x, a, other, id) <==> Lists(y, a, other, id))
  }

  ghost predicate SameLists(x: Accounts, y: Accounts) {
    forall a, mid, id :: Lists(x, a, mid, id) <==> Lists(y, a, mid, id)
  }

  lemma BookGetSide(b: Book, side: Side, id: OrderId)
    requires BookOk(b)
    requires Lookup(Resting(b, side), id).Some?
    ensures BookGet(b, id) == Lookup(Resting(b, side), id)
    ensures Lookup(Resting(b, Opposite(side)), id).None?
  {
    assert Lookup(b.bids, id).None? || Lookup(b.asks, id).None?;
  }

  /** Taking lots off one order leaves every other order alone. */
  lemma ReduceBook(b: Book, side: Side, id: OrderId, qty: nat)
    requires BookOk(b)
    requires Lookup(Resting(b, side), id).Some?
    ensures var c := WithResting(b, side, Reduce(Resting(b, side), id, qty));
      && BookOk(c)
      && (forall other :: other != id ==> BookGet(c, other) == BookGet(b, other))
      && OwnerOf(c, id) == (if qty >= BookGet(b, id).value.openQty then None else OwnerOf(b, id))
  {
    var os := Resting(b, side);
    var c := WithResting(b, side, Reduce(os, id, qty));
    ReduceDistinct(os, id, qty);
    ReduceOpen(os, id, qty);
    BookGetSide(b, side, id);
    forall other
      ensures Lookup(c.bids, other).None? || Lookup(c.asks, other).None?
      ensures other != id ==> BookGet(c, other) == BookGet(b, other)
    {
      assert Lookup(b.bids, other).None? || Lookup(b.asks, other).None?;
      ReduceLookup(os, id, qty, other);
    }
    ReduceLookup(os, id, qty, id);
  }

  lemma InsertBook(b: Book, side: Side, rank: nat, o: Order)
    requires BookOk(b)
    requires BookGet(b, o.id).None?
    requires o.openQty > 0
    ensures var c := WithResting(b, side, Insert(Resting(b, side), rank, o));
      && BookOk(c)
      && (forall other :: BookGet(c, other) == if other == o.id then Some(o) else BookGet(b, other))
  {
    var os := Resting(b, side);
    var c := WithResting(b, side, Insert(os, rank, o));
    InsertDistinct(os, rank, o);
    InsertOpen(os, rank, o);
    forall other
      ensures Lookup(c.bids, other).None? || Lookup(c.asks, other).None?
      ensures BookGet(c, other) == if other == o.id then Some(o) else BookGet(b, other)
    {
      assert Lookup(b.bids, other).None? || Lookup(b.asks, other).None?;
      InsertLookup(os, rank, o, other);
    }
  }

  /** Dropping an order from the book and from its owner's list keeps the two in step. */
  lemma DropOrder(accounts: Accounts, a: AccountId, after: VAccount, mid: MarketId, id: OrderId, b: Book, c: Book)
    requires IndexAgrees(accounts, mid, b)
    requires OwnerOf(b, id) == Some(a) && OwnerOf(c, id).None?
    requires forall other :: other != id ==> BookGet(c, other) == BookGet(b, other)
    requires a in accounts
    requires after.openOrders == RemoveOrderInfo(accounts[a], mid, id).openOrders
    ensures IndexAgrees(accounts[a := after], mid, c)
    ensures SameElsewhere(accounts, accounts[a := after], mid)
  {
    var next := accounts[a := after];
    forall x, i
      ensures Lists(next, x, mid, i) <==> OwnerOf(c, i) == Some(x)
    {
      assert Lists(accounts, x, mid, i) <==> OwnerOf(b, i) == Some(x);
      RemoveHas(accounts[a], mid, id, mid, i);
      if i != id {
        assert BookGet(c, i) == BookGet(b, i);
      }
    }
    forall x, other, i | other != mid
      ensures Lists(accounts, x, other, i) <==> Lists(next, x, other, i)
    {
      RemoveHas(accounts[a], mid, id, other, i);
    }
  }

  /** Changing an account but not its lists changes nothing here. */
  lemma SameListsUpdate(accounts: Accounts, a: AccountId, after: VAccount)
    requires a in accounts
    requires after.openOrders == accounts[a].openOrders
    ensures SameLists(accounts, accounts[a := after])
  {
  }

  lemma AgreesWithSameLists(x: Accounts, y: Accounts, mid: MarketId, b: Book)
    requires SameLists(x, y)
    requires IndexAgrees(x, mid, b)
    ensures IndexAgrees(y, mid, b)
  {
    forall a, id
      ensures Lists(y, a, mid, id) <==> OwnerOf(b, id) == Some(a)
    {
      assert Lists(x, a, mid, id) <==> OwnerOf(b, id) == Some(a);
      assert Lists(x, a, mid, id) <==> Lists(y, a, mid, id);
    }
  }

  /** Posting a fresh order on the book and on its owner's list keeps the two in step. */
  lemma PostOrder(accounts: Accounts, a: AccountId, after: VAccount, mid: MarketId, info: OrderInfo, cap: nat, o: Order, b: Book, c: Book)
    requires IndexAgrees(accounts, mid, b)
    requires a in accounts && o.owner == a
    requires BookGet(b, o.id).None?
    requires forall other :: BookGet(c, other) == if other == o.id then Some(o) else BookGet(b, other)
    requires SaveNewOrderInfo(accounts[a], mid, o.id, info, cap).Ok?
    requires after.openOrders == SaveNewOrderInfo(accounts[a], mid, o.id, info, cap).value.openOrders
    ensures !Has(accounts[a], mid, o.id)
    ensures IndexAgrees(accounts[a := after], mid, c)
    ensures SameElsewhere(accounts, accounts[a := after], mid)
  {
    var next := accounts[a := after];
    assert !Lists(accounts, a, mid, o.id);
    forall x, i
      ensures Lists(next, x, mid, i) <==> OwnerOf(c, i) == Some(x)
    {
      assert Lists(accounts, x, mid, i) <==> OwnerOf(b, i) == Some(x);
      assert BookGet(c, i) == if i == o.id then Some(o) else BookGet(b, i);
    }
  }
}

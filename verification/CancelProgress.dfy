/** Resting orders can always be cancelled, and what cancelling them does to balances and books. */
module CancelProgress {
  import opened Arithmetic
  import opened Exchange
  import opened Invariants
  import opened Ledger
  import opened MatchingEngine
  import opened NoBugs
  import opened OrderBook
  import opened OrderIndex
  import opened Orders
  import opened Outcomes
  import opened Reachability
  import opened Settlement
  import opened Solvency
  import opened StoredAccount
  import opened StoredMarket
  import opened Types

  /** A balance entry of either token of the market is no larger than the reserve of one order. */
  predicate EntriesFit(z: Sizes, t: Terms) {
    z.entrySize(t.baseToken) <= ORDER_SIZE && z.entrySize(t.quoteToken) <= ORDER_SIZE
  }

  /** All that is owed of either token of the market fits the integer of a balance. */
  ghost predicate OwedFits(s: State, t: Terms) {
    Liabilities(s, t.baseToken) < TWO_128 && Liabilities(s, t.quoteToken) < TWO_128
  }

  /** By solvency this is so in every reachable state whose holdings fit. */
  lemma OwedFitsOverRuns(z: Sizes, owner: AccountId, actions: seq<Action>, t: Terms)
    requires var s := Run(z, Deployed(owner), actions);
      && Held(s, t.baseToken) + Payouts(z, Deployed(owner), actions) < TWO_128
      && Held(s, t.quoteToken) + Payouts(z, Deployed(owner), actions) < TWO_128
    ensures OwedFits(Run(z, Deployed(owner), actions), t)
  {
    hide Run, Liabilities, Held, Payouts;
    SolventOverRuns(z, owner, actions, t.baseToken);
    SolventOverRuns(z, owner, actions, t.quoteToken);
  }

  // ---------- Amounts ----------

  /** A balance and everything a market can refund are part of what is owed. */
  lemma BalanceAndClaimFit(s: State, account: AccountId, mid: MarketId, token: Token)
    requires mid in s.markets
    ensures BalanceAt(s.accounts, account, token) + BookClaim(s.markets[mid].terms, s.markets[mid].book, token) <= Liabilities(s, token)
  {
    TotalBalanceCovers(s.accounts, account, token);
    TotalClaimsCover(s.markets, mid, token);
    hide TotalBalance, TotalClaims, TotalSends, BookClaim;
  }

  lemma EscrowWithinClaim(t: Terms, b: Book, side: Side)
    ensures Escrow(t.lots, side, Resting(b, side)) <= BookClaim(t, b, EscrowToken(t, side))
  {
  }

  /** Computing and crediting the refund of one order overflows nowhere. */
  lemma RefundOneSucceeds(t: Terms, mid: MarketId, owner: AccountId, a: VAccount, p: Pending)
    requires p.order.owner == owner
    requires p.side == Buy ==> BidFits(t.lots, p.order)
    requires Balance(a, EscrowToken(t, p.side)) + Value(t.lots, p.side, p.order.price, p.order.openQty) < TWO_128
    ensures RefundOne(t, mid, owner, a, p).Ok?
  {
    hide RemoveOrderInfo, UnitValue;
  }

  /** A refund goes through exactly when the order is the owner's and its value, its base and the balance fit 128 bits. */
  lemma RefundSucceedsExactly(t: Terms, mid: MarketId, owner: AccountId, a: VAccount, p: Pending)
    ensures RefundOne(t, mid, owner, a, p).Ok? <==>
      && p.order.owner == owner
      && p.order.openQty * t.lots.base < TWO_128
      && (p.side == Buy ==> p.order.openQty * UnitValue(t.lots, p.order.price) < TWO_256)
      && Balance(a, EscrowToken(t, p.side)) + Value(t.lots, p.side, p.order.price, p.order.openQty) < TWO_128
  {
    hide RemoveOrderInfo, UnitValue;
  }

  lemma RefundOneSize(z: Sizes, t: Terms, mid: MarketId, owner: AccountId, a: VAccount, p: Pending)
    requires EntriesFit(z, t)
    requires !Has(a, mid, p.order.id)
    requires RefundOne(t, mid, owner, a, p).Ok?
    ensures BorshSize(z, RefundOne(t, mid, owner, a, p).value) <= BorshSize(z, a) + ORDER_SIZE
  {
    hide BorshSize, RefundAmount;
    var token, amount := EscrowToken(t, p.side), RefundAmount(t, p).value;
    DepositSize(z, a, token, amount);
    assert RefundOne(t, mid, owner, a, p).value == Deposit(a, token, amount).value;
  }

  // ---------- One order ----------

  /**
   * Cancelling never fails: in any sound state the owner of a listed order can cancel it.
   * The freed order bytes cover the refund entry, no amount overflows, the order is on the book.
   */
  lemma CancelSucceeds(z: Sizes, s: State, account: AccountId, mid: MarketId, id: OrderId)
    requires Sound(z, s)
    requires mid in s.markets && CanCancel(s.markets[mid])
    requires account in s.accounts && Has(s.accounts[account], mid, id)
    requires EntriesFit(z, s.markets[mid].terms) && OwedFits(s, s.markets[mid].terms)
    ensures CancelOrder(z, s, account, mid, id).Ok?
  {
    hide RefundOne, BorshSize, Covered, Sound, EntriesFit, OwedFits, BookOk, IndexAgrees, MarketOk, Value, BidFits,
         CancelOrder, BookGet, Shrinks, Lookup;
    var m, a := s.markets[mid], s.accounts[account];
    MarketOf(z, s, mid);
    ListedIsOnBook(s.accounts, account, mid, id, m.book);
    TakeOrderFacts(m.book, id);
    hide TakeOrder;
    var p := TakeOrder(m.book, id).value.1;
    var unlisted := RemoveOrderInfo(a, mid, id);
    RemoveHas(a, mid, id, mid, id);
    RemoveFrees(z, a, mid, id);
    assert unlisted.balances == a.balances && unlisted.storageBalance == a.storageBalance;
    hide RemoveOrderInfo, Has;
    RefundFits(z, s, account, mid, p, unlisted);
    RefundOneSucceeds(m.terms, mid, account, unlisted, p);
    RefundOneSize(z, m.terms, mid, account, unlisted, p);
    RefundOneEffect(m.terms, mid, account, unlisted, p, m.terms.quoteToken);
    CoveredOf(z, s, account);
    SmallerIsCovered(z, a, RefundOne(m.terms, mid, account, unlisted, p).value);
    CancelUnfolds(z, s, account, mid, id);
  }

  lemma CancelUnfolds(z: Sizes, s: State, account: AccountId, mid: MarketId, id: OrderId)
    requires mid in s.markets && CanCancel(s.markets[mid])
    requires account in s.accounts && Has(s.accounts[account], mid, id)
    requires TakeOrder(s.markets[mid].book, id).Some?
    requires var p := TakeOrder(s.markets[mid].book, id).value.1;
      var r := RefundOne(s.markets[mid].terms, mid, account, RemoveOrderInfo(s.accounts[account], mid, id), p);
      r.Ok? && Covered(z, r.value)
    ensures CancelOrder(z, s, account, mid, id).Ok?
  {
    hide RefundOne, Covered, TakeOrder, RemoveOrderInfo;
    var m := s.markets[mid];
    var p := TakeOrder(m.book, id).value.1;
    var unlisted := RemoveOrderInfo(s.accounts[account], mid, id);
    assert [p][..0] == [];
    assert ProcessRefunds(m.terms, mid, account, unlisted, []) == Ok(unlisted);
    assert ProcessRefunds(m.terms, mid, account, unlisted, [p]) == RefundOne(m.terms, mid, account, unlisted, p);
  }

  lemma RefundFits(z: Sizes, s: State, account: AccountId, mid: MarketId, p: Pending, unlisted: VAccount)
    requires Sound(z, s)
    requires mid in s.markets && account in s.accounts
    requires Lookup(Resting(s.markets[mid].book, p.side), p.order.id) == Some(p.order)
    requires unlisted.balances == s.accounts[account].balances
    requires OwedFits(s, s.markets[mid].terms)
    ensures p.side == Buy ==> BidFits(s.markets[mid].terms.lots, p.order)
    ensures Balance(unlisted, EscrowToken(s.markets[mid].terms, p.side))
          + Value(s.markets[mid].terms.lots, p.side, p.order.price, p.order.openQty) < TWO_128
  {
    var m := s.markets[mid];
    var token := EscrowToken(m.terms, p.side);
    MarketOf(z, s, mid);
    BalanceAndClaimFit(s, account, mid, token);
    EscrowWithinClaim(m.terms, m.book, p.side);
    EscrowCovers(m.terms.lots, p.side, Resting(m.book, p.side), p.order.id);
    hide Sound, Liabilities, Escrow, BookClaim, Value, BidFits, Lookup, BookOk, IndexAgrees, Numbered;
  }

  // ---------- All orders of an account ----------

  lemma {:induction false} PendingOnBook(b: Book, ids: seq<OrderId>)
    requires BookOk(b)
    requires TakeOrders(b, ids).Ok?
    ensures var pending := TakeOrders(b, ids).value.1;
      forall p :: p in pending ==> exists x :: Lookup(Resting(b, p.side), p.order.id) == Some(x) && x.price == p.order.price && p.order.openQty <= x.openQty
  {
    if ids != [] {
      var n := |ids| - 1;
      var (c, earlier) := TakeOrders(b, ids[..n]).value;
      var (d, p) := TakeOrder(c, ids[n]).value;
      PendingOnBook(b, ids[..n]);
      TakeOrdersFacts(b, ids[..n]);
      TakeOrderFacts(c, ids[n]);
      assert Lookup(Resting(c, p.side), p.order.id).Some?;
      assert Lookup(Resting(b, p.side), p.order.id).Some?;
      hide Lookup, TakeOrder, BookOk, BookGet;
    }
  }

  /** A refund adds at most one balance entry for each order refunded. */
  lemma {:induction false} RefundsSize(z: Sizes, t: Terms, mid: MarketId, owner: AccountId, a: VAccount, pending: seq<Pending>)
    requires EntriesFit(z, t)
    requires mid !in a.openOrders
    requires ProcessRefunds(t, mid, owner, a, pending).Ok?
    ensures var b := ProcessRefunds(t, mid, owner, a, pending).value;
      BorshSize(z, b) <= BorshSize(z, a) + |pending| * ORDER_SIZE && mid !in b.openOrders && b.storageBalance == a.storageBalance
  {
    hide BorshSize, RefundOne, Value, BidFits;
    if pending != [] {
      var n := |pending| - 1;
      var p := pending[n];
      RefundsSize(z, t, mid, owner, a, pending[..n]);
      var b := ProcessRefunds(t, mid, owner, a, pending[..n]).value;
      RefundOneSize(z, t, mid, owner, b, p);
      RefundOneEffect(t, mid, owner, b, p, t.quoteToken);
      assert (n + 1) * ORDER_SIZE == n * ORDER_SIZE + ORDER_SIZE;
    }
  }

  /** Refunding any list of orders whose total fits overflows nowhere. */
  lemma {:induction false} RefundsSucceed(t: Terms, mid: MarketId, owner: AccountId, a: VAccount, pending: seq<Pending>)
    requires forall p :: p in pending ==> p.order.owner == owner && (p.side == Buy ==> BidFits(t.lots, p.order))
    requires Balance(a, t.quoteToken) + PendingValue(t, pending, t.quoteToken) < TWO_128
    requires Balance(a, t.baseToken) + PendingValue(t, pending, t.baseToken) < TWO_128
    ensures ProcessRefunds(t, mid, owner, a, pending).Ok?
  {
    hide BorshSize, RefundOne, Value, BidFits;
    if pending != [] {
      var n := |pending| - 1;
      var p := pending[n];
      RefundsSucceed(t, mid, owner, a, pending[..n]);
      var b := ProcessRefunds(t, mid, owner, a, pending[..n]).value;
      RefundsEffect(t, mid, owner, a, pending[..n], EscrowToken(t, p.side));
      assert p in pending;
      RefundOneSucceeds(t, mid, owner, b, p);
    }
  }

  /** Cancelling all of an account's orders in a market never fails either. */
  lemma CancelAllSucceeds(z: Sizes, s: State, account: AccountId, mid: MarketId, ids: seq<OrderId>)
    requires Sound(z, s)
    requires mid in s.markets && CanCancel(s.markets[mid])
    requires account in s.accounts
    requires Enumerates(ids, ListedIds(s.accounts[account], mid))
    requires EntriesFit(z, s.markets[mid].terms) && OwedFits(s, s.markets[mid].terms)
    ensures CancelAll(z, s, account, mid, ids).Ok?
  {
    hide Sound, OwedFits, EntriesFit, Covered, ProcessRefunds, TakeOrders, PendingValue, BidFits, BookOk;
    var m := s.markets[mid];
    ListedAreOwned(z, s, account, mid, ids);
    TakeOrdersSucceeds(m.book, ids, account);
    TotalRefundsFit(z, s, account, mid, ids, m.terms.quoteToken);
    TotalRefundsFit(z, s, account, mid, ids, m.terms.baseToken);
    PendingBidsFit(z, s, mid, ids);
    RefundsSucceed(m.terms, mid, account, RemoveAllOrderInfos(s.accounts[account], mid), TakeOrders(m.book, ids).value.1);
    CancelAllFitsStorage(z, s, account, mid, ids);
  }

  lemma TotalRefundsFit(z: Sizes, s: State, account: AccountId, mid: MarketId, ids: seq<OrderId>, token: Token)
    requires Sound(z, s)
    requires mid in s.markets && account in s.accounts
    requires TakeOrders(s.markets[mid].book, ids).Ok?
    requires OwedFits(s, s.markets[mid].terms)
    requires token == s.markets[mid].terms.quoteToken || token == s.markets[mid].terms.baseToken
    ensures Balance(s.accounts[account], token)
          + PendingValue(s.markets[mid].terms, TakeOrders(s.markets[mid].book, ids).value.1, token) < TWO_128
  {
    var m := s.markets[mid];
    BalanceAndClaimFit(s, account, mid, token);
    TakeOrdersClaim(m.terms, m.book, ids, token);
    assert BookClaim(m.terms, TakeOrders(m.book, ids).value.0, token) >= 0;
    hide Sound, Liabilities, BookClaim, TakeOrders, PendingValue;
  }

  lemma PendingBidsFit(z: Sizes, s: State, mid: MarketId, ids: seq<OrderId>)
    requires Sound(z, s) && mid in s.markets
    requires TakeOrders(s.markets[mid].book, ids).Ok?
    ensures forall p :: p in TakeOrders(s.markets[mid].book, ids).value.1 ==>
      p.side == Buy ==> BidFits(s.markets[mid].terms.lots, p.order)
  {
    var m := s.markets[mid];
    MarketOf(z, s, mid);
    PendingOnBook(m.book, ids);
    hide Lookup, BookOk, BidFits, TakeOrders, Sound;
    forall p | p in TakeOrders(m.book, ids).value.1 && p.side == Buy
      ensures BidFits(m.terms.lots, p.order)
    {
      var x :| Lookup(Resting(m.book, p.side), p.order.id) == Some(x) && x.price == p.order.price && p.order.openQty <= x.openQty;
      SmallerBidFits(m.terms.lots, x, p.order);
    }
  }

  // ---------- Storage on its own ----------

  lemma {:induction false} TakenAreAsMany(b: Book, ids: seq<OrderId>)
    requires TakeOrders(b, ids).Ok?
    ensures |TakeOrders(b, ids).value.1| == |ids|
  {
    if ids != [] {
      TakenAreAsMany(b, ids[..|ids| - 1]);
    }
  }

  /** Whatever else may go wrong, a cancel never fails for lack of storage. */
  lemma CancelFitsStorage(z: Sizes, s: State, account: AccountId, mid: MarketId, id: OrderId)
    requires Sound(z, s)
    requires mid in s.markets ==> EntriesFit(z, s.markets[mid].terms)
    ensures CancelOrder(z, s, account, mid, id) != Err(InsufficientStorage)
  {
    hide RefundOne, BorshSize, Covered, Sound, TakeOrder, RemoveOrderInfo, Has, EntriesFit;
    if mid in s.markets && account in s.accounts && Has(s.accounts[account], mid, id) && TakeOrder(s.markets[mid].book, id).Some? {
      var m, a := s.markets[mid], s.accounts[account];
      var p := TakeOrder(m.book, id).value.1;
      var unlisted := RemoveOrderInfo(a, mid, id);
      var r := RefundOne(m.terms, mid, account, unlisted, p);
      assert [p][..0] == [];
      assert ProcessRefunds(m.terms, mid, account, unlisted, [p]) == r;
      RefundErrors(m.terms, mid, account, unlisted, p);
      if r.Ok? {
        RemoveHas(a, mid, id, mid, id);
        TakenId(m.book, id);
        RemoveFrees(z, a, mid, id);
        RemovalKeepsDeposit(a, mid, id);
        RefundOneSize(z, m.terms, mid, account, unlisted, p);
        RefundOneEffect(m.terms, mid, account, unlisted, p, m.terms.quoteToken);
        CoveredOf(z, s, account);
        SmallerIsCovered(z, a, r.value);
      }
    }
  }

  lemma RemovalKeepsDeposit(a: VAccount, mid: MarketId, id: OrderId)
    ensures RemoveOrderInfo(a, mid, id).storageBalance == a.storageBalance
  {
  }

  lemma RefundErrors(t: Terms, mid: MarketId, owner: AccountId, a: VAccount, p: Pending)
    ensures var r := RefundOne(t, mid, owner, a, p); r.Err? ==> r.error == OrderNotOwned || r.error == Overflow
  {
    hide UnitValue, QuoteValue, RemoveOrderInfo;
  }

  lemma {:induction false} RefundsErrors(t: Terms, mid: MarketId, owner: AccountId, a: VAccount, pending: seq<Pending>)
    ensures var r := ProcessRefunds(t, mid, owner, a, pending); r.Err? ==> r.error == OrderNotOwned || r.error == Overflow
  {
    hide RefundOne;
    if pending != [] {
      var n := |pending| - 1;
      RefundsErrors(t, mid, owner, a, pending[..n]);
      if ProcessRefunds(t, mid, owner, a, pending[..n]).Ok? {
        RefundErrors(t, mid, owner, ProcessRefunds(t, mid, owner, a, pending[..n]).value, pending[n]);
      }
    }
  }

  lemma {:induction false} TakeOrdersErrors(b: Book, ids: seq<OrderId>)
    ensures var r := TakeOrders(b, ids); r.Err? ==> r.error == OrderNotOnBook
  {
    if ids != [] {
      TakeOrdersErrors(b, ids[..|ids| - 1]);
    }
  }

  /** Nor does cancelling all orders at once. */
  lemma CancelAllFitsStorage(z: Sizes, s: State, account: AccountId, mid: MarketId, ids: seq<OrderId>)
    requires Sound(z, s)
    requires mid in s.markets ==> EntriesFit(z, s.markets[mid].terms)
    ensures CancelAll(z, s, account, mid, ids) != Err(InsufficientStorage)
  {
    hide BorshSize, Covered, Sound, ProcessRefunds, TakeOrders, Enumerates, EntriesFit, ListedIds;
    if mid in s.markets && account in s.accounts && Enumerates(ids, ListedIds(s.accounts[account], mid)) {
      var m, a := s.markets[mid], s.accounts[account];
      var unlisted := RemoveAllOrderInfos(a, mid);
      TakeOrdersErrors(m.book, ids);
      if TakeOrders(m.book, ids).Ok? {
        var pending := TakeOrders(m.book, ids).value.1;
        RefundsErrors(m.terms, mid, account, unlisted, pending);
        if ProcessRefunds(m.terms, mid, account, unlisted, pending).Ok? {
          TakenAreAsMany(m.book, ids);
          EnumerationSize(ids, ListedIds(a, mid));
          RemoveAllFrees(z, a, mid);
          RefundsSize(z, m.terms, mid, account, unlisted, pending);
          CoveredOf(z, s, account);
          SmallerIsCovered(z, a, ProcessRefunds(m.terms, mid, account, unlisted, pending).value);
        }
      }
    }
  }

  /**
   * After any run from deployment no cancel fails its storage check, and a listed order can be cancelled
   * whenever its market allows cancels and what is owed of the pair fits 128 bits.
   */
  lemma CancelsOverRuns(z: Sizes, owner: AccountId, actions: seq<Action>, account: AccountId, mid: MarketId, id: OrderId, ids: seq<OrderId>)
    requires var s := Run(z, Deployed(owner), actions); mid in s.markets && EntriesFit(z, s.markets[mid].terms)
    ensures var s := Run(z, Deployed(owner), actions);
      && CancelOrder(z, s, account, mid, id) != Err(InsufficientStorage)
      && CancelAll(z, s, account, mid, ids) != Err(InsufficientStorage)
      && (account in s.accounts && (s.markets[mid].state.Trading? || s.markets[mid].state.Closing?) && OwedFits(s, s.markets[mid].terms) ==>
            && (Has(s.accounts[account], mid, id) ==>
                  && CancelOrder(z, s, account, mid, id).Ok?
                  && (s.mode.Active? || s.mode.CancelOnly? ==> Apply(z, s, ActCancel(account, mid, id)).Ok?))
            && (Enumerates(ids, ListedIds(s.accounts[account], mid)) ==>
                  && CancelAll(z, s, account, mid, ids).Ok?
                  && (s.mode.Active? ==> Apply(z, s, ActCancelAll(account, mid, ids)).Ok?)))
  {
    hide CancelOrder, CancelAll, Sound, EntriesFit, OwedFits, Has, Enumerates, ListedIds;
    var s := Run(z, Deployed(owner), actions);
    RunIsSound(z, owner, actions);
    CancelFitsStorage(z, s, account, mid, id);
    CancelAllFitsStorage(z, s, account, mid, ids);
    if account in s.accounts && CanCancel(s.markets[mid]) && OwedFits(s, s.markets[mid].terms) {
      if Has(s.accounts[account], mid, id) {
        CancelSucceeds(z, s, account, mid, id);
      }
      if Enumerates(ids, ListedIds(s.accounts[account], mid)) {
        CancelAllSucceeds(z, s, account, mid, ids);
      }
    }
  }

  // ---------- Clearing a book ----------

  /** What a cancel does: the owner is refunded, nobody else is touched, one order leaves the book. */
  lemma CancelEffect(z: Sizes, s: State, account: AccountId, mid: MarketId, id: OrderId, x: AccountId, token: Token)
    requires CancelOrder(z, s, account, mid, id).Ok?
    ensures mid in s.markets && TakeOrder(s.markets[mid].book, id).Some?
    ensures var after := CancelOrder(z, s, account, mid, id).value;
      var (c, p) := TakeOrder(s.markets[mid].book, id).value;
      && BalanceAt(after.accounts, x, token) == BalanceAt(s.accounts, x, token)
           + (if x == account && token == EscrowToken(s.markets[mid].terms, p.side)
              then Value(s.markets[mid].terms.lots, p.side, p.order.price, p.order.openQty) else 0)
      && after == s.(accounts := after.accounts, markets := s.markets[mid := s.markets[mid].(book := c)])
      && after.accounts.Keys == s.accounts.Keys
  {
    hide Covered, RefundOne, Value, TakeOrder;
    var m := s.markets[mid];
    var p := TakeOrder(m.book, id).value.1;
    var unlisted := RemoveOrderInfo(s.accounts[account], mid, id);
    assert [p][..0] == [];
    assert ProcessRefunds(m.terms, mid, account, unlisted, [p]) == RefundOne(m.terms, mid, account, unlisted, p);
    RefundOneEffect(m.terms, mid, account, unlisted, p, token);
    assert Balance(unlisted, token) == Balance(s.accounts[account], token);
  }

  function AllOrders(b: Book): seq<Order> {
    b.asks + b.bids
  }

  /** The refunds that the first `n` orders of a book, asks first, bring to an account. */
  function Refunds(t: Terms, b: Book, n: nat, a: AccountId, token: Token): nat
    requires n <= |b.asks| + |b.bids|
  {
    if n == 0 then 0
    else
      var o := AllOrders(b)[n - 1];
      var side := if n - 1 < |b.asks| then Sell else Buy;
      Refunds(t, b, n - 1, a, token)
      + (if o.owner == a && token == EscrowToken(t, side) then Value(t.lots, side, o.price, o.openQty) else 0)
  }

  /** The book without its first `n` orders, asks first. */
  function Rest(b: Book, n: nat): Book
    requires n <= |b.asks| + |b.bids|
  {
    if n <= |b.asks| then Book(b.bids, b.asks[n..]) else Book(b.bids[n - |b.asks|..], [])
  }

  /** Taking the front order leaves the rest. */
  lemma TakeFront(b: Book, n: nat)
    requires n < |b.asks| + |b.bids|
    ensures var o := AllOrders(b)[n];
      TakeOrder(Rest(b, n), o.id) == Some((Rest(b, n + 1), Pending(if n < |b.asks| then Sell else Buy, o)))
  {
    var o, c := AllOrders(b)[n], Rest(b, n);
    if n < |b.asks| {
      assert c.asks[0] == o;
      assert Lookup(c.asks, o.id) == Some(o);
      assert c.asks[1..] == b.asks[n + 1..];
      assert Rest(b, n + 1) == Book(b.bids, b.asks[n + 1..]);
    } else {
      var k := n - |b.asks|;
      assert c.bids == b.bids[k..] && c.asks == [];
      assert c.bids[0] == o;
      assert Lookup(c.bids, o.id) == Some(o);
      assert c.bids[1..] == b.bids[k + 1..];
      assert Rest(b, n + 1) == Book(b.bids[k + 1..], []);
    }
  }

  /** The front order is listed by its owner. */
  lemma FrontIsListed(z: Sizes, s: State, mid: MarketId, b: Book, n: nat)
    requires Sound(z, s) && mid in s.markets
    requires n < |b.asks| + |b.bids|
    requires s.markets[mid].book == Rest(b, n)
    ensures var o := AllOrders(b)[n];
      o.owner in s.accounts && Has(s.accounts[o.owner], mid, o.id)
  {
    var o := AllOrders(b)[n];
    MarketOf(z, s, mid);
    TakeFront(b, n);
    TakeOrderFacts(Rest(b, n), o.id);
    assert Lists(s.accounts, o.owner, mid, o.id) <==> OwnerOf(Rest(b, n), o.id) == Some(o.owner);
  }

  /**
   * Clearing the first `n` orders of a snapshot: every cancel finds its order although each one rewrites
   * the stored market, exactly the rest stay on the book, and every account gains its own refunds.
   */
  lemma {:induction false} ClearPrefix(z: Sizes, s: State, mid: MarketId, n: nat, a: AccountId, token: Token)
    requires Sound(z, s)
    requires mid in s.markets && CanCancel(s.markets[mid])
    requires EntriesFit(z, s.markets[mid].terms) && OwedFits(s, s.markets[mid].terms)
    requires n <= |s.markets[mid].book.asks| + |s.markets[mid].book.bids|
    ensures CancelEach(z, s, mid, AllOrders(s.markets[mid].book)[..n]).Ok?
    ensures var m := s.markets[mid];
      var after := CancelEach(z, s, mid, AllOrders(m.book)[..n]).value;
      && after == s.(accounts := after.accounts, markets := s.markets[mid := m.(book := Rest(m.book, n))])
      && after.accounts.Keys == s.accounts.Keys
      && BalanceAt(after.accounts, a, token) == BalanceAt(s.accounts, a, token) + Refunds(m.terms, m.book, n, a, token)
    decreases n
  {
    hide CancelOrder, CancelEach, Sound, EntriesFit, OwedFits, BalanceAt, Rest, Refunds, CanCancel;
    var m := s.markets[mid];
    var all := AllOrders(m.book);
    if n == 0 {
      ClearNothing(z, s, mid, a, token);
    } else {
      ClearPrefix(z, s, mid, n - 1, a, token);
      CancelEachStep(z, s, mid, all, n - 1);
      var before := CancelEach(z, s, mid, all[..n - 1]).value;
      CancelEachKeepsSound(z, s, mid, all[..n - 1]);
      StillFits(z, s, mid, all[..n - 1], m.terms);
      ClearStep(z, s, before, mid, n - 1, a, token);
    }
  }

  lemma ClearNothing(z: Sizes, s: State, mid: MarketId, a: AccountId, token: Token)
    requires mid in s.markets
    ensures var m := s.markets[mid];
      && CancelEach(z, s, mid, AllOrders(m.book)[..0]) == Ok(s)
      && s == s.(markets := s.markets[mid := m.(book := Rest(m.book, 0))])
      && Refunds(m.terms, m.book, 0, a, token) == 0
  {
    assert Rest(s.markets[mid].book, 0) == s.markets[mid].book;
    assert s.markets[mid := s.markets[mid]] == s.markets;
  }

  lemma CancelEachStep(z: Sizes, s: State, mid: MarketId, all: seq<Order>, n: nat)
    requires n < |all|
    requires CancelEach(z, s, mid, all[..n]).Ok?
    ensures CancelEach(z, s, mid, all[..n + 1]) == CancelOrder(z, CancelEach(z, s, mid, all[..n]).value, all[n].owner, mid, all[n].id)
  {
    hide CancelOrder;
    assert all[..n + 1][..n] == all[..n];
    assert all[..n + 1][n] == all[n];
  }

  /** One more cancel, against the state that the earlier ones left. */
  lemma ClearStep(z: Sizes, s: State, before: State, mid: MarketId, n: nat, a: AccountId, token: Token)
    requires mid in s.markets && CanCancel(s.markets[mid])
    requires n < |s.markets[mid].book.asks| + |s.markets[mid].book.bids|
    requires Sound(z, before) && OwedFits(before, s.markets[mid].terms)
    requires EntriesFit(z, s.markets[mid].terms)
    requires before == s.(accounts := before.accounts, markets := s.markets[mid := s.markets[mid].(book := Rest(s.markets[mid].book, n))])
    ensures var m := s.markets[mid];
      var o := AllOrders(m.book)[n];
      var r := CancelOrder(z, before, o.owner, mid, o.id);
      && r.Ok?
      && r.value == s.(accounts := r.value.accounts, markets := s.markets[mid := m.(book := Rest(m.book, n + 1))])
      && r.value.accounts.Keys == before.accounts.Keys
      && BalanceAt(r.value.accounts, a, token) - BalanceAt(before.accounts, a, token)
         == Refunds(m.terms, m.book, n + 1, a, token) - Refunds(m.terms, m.book, n, a, token)
  {
    hide CancelOrder, Sound, EntriesFit, OwedFits, Value, TakeOrder, BalanceAt, Has;
    var m := s.markets[mid];
    var o := AllOrders(m.book)[n];
    FrontIsListed(z, before, mid, m.book, n);
    CancelSucceeds(z, before, o.owner, mid, o.id);
    TakeFront(m.book, n);
    hide Rest;
    CancelEffect(z, before, o.owner, mid, o.id, a, token);
    assert before.markets[mid := m.(book := Rest(m.book, n + 1))] == s.markets[mid := m.(book := Rest(m.book, n + 1))];
  }

  /** Clearing moves what is owed from escrow to balances, and leaves the amounts alone. */
  lemma StillFits(z: Sizes, s: State, mid: MarketId, orders: seq<Order>, t: Terms)
    requires CancelEach(z, s, mid, orders).Ok?
    requires CancelEach(z, s, mid, orders).value.held == s.held
    requires OwedFits(s, t)
    ensures OwedFits(CancelEach(z, s, mid, orders).value, t)
  {
    hide CancelEach, Liabilities;
    CancelEachConserves(z, s, mid, orders, t.baseToken);
    CancelEachConserves(z, s, mid, orders, t.quoteToken);
  }

  lemma SnapshotIsFront(b: Book, limit: Option<nat>)
    ensures |Snapshot(b, limit)| == Min(if limit.Some? then limit.value else 65535, |b.asks| + |b.bids|)
    ensures Snapshot(b, limit) == AllOrders(b)[..|Snapshot(b, limit)|]
  {
  }

  lemma RestIsTail(b: Book, n: nat)
    requires n <= |b.asks| + |b.bids|
    ensures AllOrders(Rest(b, n)) == AllOrders(b)[n..]
  {
  }

  /** Clearing a book cancels the first `min(limit, total)` orders, asks before bids, and cannot fail. */
  lemma ClearingCancelsTheFront(z: Sizes, s: State, mid: MarketId, limit: Option<nat>, a: AccountId, token: Token)
    requires Sound(z, s)
    requires mid in s.markets && (s.markets[mid].state.Trading? || s.markets[mid].state.Closing?)
    requires EntriesFit(z, s.markets[mid].terms) && OwedFits(s, s.markets[mid].terms)
    ensures ClearOrderbook(z, s, mid, limit).Ok?
    ensures Apply(z, s, ActClear(s.owner, mid, limit)) == ClearOrderbook(z, s, mid, limit)
    ensures var m := s.markets[mid];
      var n := |Snapshot(m.book, limit)|;
      var after := ClearOrderbook(z, s, mid, limit).value;
      && n == Min(if limit.Some? then limit.value else 65535, |m.book.asks| + |m.book.bids|)
      && AllOrders(after.markets[mid].book) == AllOrders(m.book)[n..]
      && BalanceAt(after.accounts, a, token) == BalanceAt(s.accounts, a, token) + Refunds(m.terms, m.book, n, a, token)
  {
    hide CancelEach, Sound, EntriesFit, OwedFits, Refunds, BalanceAt, Snapshot, Rest, AllOrders;
    var m := s.markets[mid];
    var n := |Snapshot(m.book, limit)|;
    SnapshotIsFront(m.book, limit);
    ClearPrefix(z, s, mid, n, a, token);
    RestIsTail(m.book, n);
  }

  // ---------- Place, then cancel ----------

  /** What posting a bid at this price locks beyond the refund: nothing for a whole number of lots. */
  function LockedBeyondRefund(t: Terms, side: Side, limit: nat, openQty: nat): int {
    if side == Buy then LockAt(t.lots, limit, openQty) - QuoteValue(t.lots, openQty, ToLots(limit, t.lots.quote)) else 0
  }

  lemma LockedBeyondRefundSign(t: Terms, side: Side, limit: nat, openQty: nat)
    ensures LockedBeyondRefund(t, side, limit, openQty) >= 0
    ensures ToLots(limit, t.lots.quote) * t.lots.quote == limit ==> LockedBeyondRefund(t, side, limit, openQty) == 0
  {
    hide ToLots, LockAt, QuoteValue;
    LotsWithin(limit, t.lots.quote);
    LockCoversValue(t.lots, limit, ToLots(limit, t.lots.quote), openQty);
  }

  /**
   * An order that fills nothing can be cancelled at once. Every balance and list is then as before, but for
   * what a bid's lock exceeds its refund by; an ask at any price and a bid at a whole number of lots lose
   * nothing.
   */
  lemma PlaceThenCancel(z: Sizes, s: State, caller: AccountId, mid: MarketId, p: NewOrderParams, pl: Placement, now: nat,
                        a: AccountId, token: Token)
    requires Sound(z, s)
    requires NewOrder(z, s, caller, mid, p, Some(pl), now).Ok?
    requires pl.fills == [] && pl.openQty > 0
    ensures mid in s.markets && p.limitPrice.Some?
    ensures var t := s.markets[mid].terms;
      var lost := LockedBeyondRefund(t, p.side, p.limitPrice.value, pl.openQty);
      var r := CancelOrder(z, NewOrder(z, s, caller, mid, p, Some(pl), now).value, caller, mid, pl.id);
      && (EntriesFit(z, t) && OwedFits(s, t) ==> r.Ok?)
      && 0 <= lost
      && (p.side == Sell || ToLots(p.limitPrice.value, t.lots.quote) * t.lots.quote == p.limitPrice.value ==> lost == 0)
      && (r.Ok? ==>
            && BalanceAt(r.value.accounts, a, token)
               == BalanceAt(s.accounts, a, token) - (if a == caller && token == EscrowToken(t, p.side) then lost else 0)
            && (a in s.accounts ==> a in r.value.accounts && r.value.accounts[a].openOrders == s.accounts[a].openOrders))
  {
    hide NewOrder, CancelOrder, TakeOrder, Sound, RemoveOrderInfo, QuoteValue, LockAt, Balance, Prepare, SettleTrade, SettleTaker, EngineOk,
         NewBook, Covered, ToLots, EntriesFit, OwedFits, ValidOrder;
    var posted := NewOrder(z, s, caller, mid, p, Some(pl), now).value;
    var o, tr, taker := OrderUnfolds(z, s, caller, mid, p, Some(pl), now);
    var t := s.markets[mid].terms;
    OrderKeepsSound(z, s, caller, mid, p, Some(pl), now);
    PreparedOrder(t, s.markets[mid].book, p, o);
    PostedIsTaken(z, s, caller, mid, p, pl, now, o, tr, taker, posted);
    LockedBeyondRefundSign(t, p.side, p.limitPrice.value, pl.openQty);
    if EntriesFit(z, t) && OwedFits(s, t) {
      PostedCanBeCancelled(z, s, caller, mid, p, pl, now);
    }
    if CancelOrder(z, posted, caller, mid, pl.id).Ok? {
      PostingLedger(z, s, caller, mid, p, pl, now, o, tr, taker, posted, a, token);
      CancelEffect(z, posted, caller, mid, pl.id, a, token);
      CancelLists(z, posted, caller, mid, pl.id, a);
      RelistedAsBefore(z, s, caller, mid, p, pl, now, o, tr, taker, posted);
    }
  }

  lemma OrderNeedsTrading(z: Sizes, s: State, caller: AccountId, mid: MarketId, p: NewOrderParams, placed: Option<Placement>, now: nat)
    requires NewOrder(z, s, caller, mid, p, placed, now).Ok?
    ensures mid in s.markets && s.markets[mid].state.Trading?
  {
    hide Place;
  }

  /** What an order owes afterwards is no more than before, so its cancel fits. */
  lemma PostedCanBeCancelled(z: Sizes, s: State, caller: AccountId, mid: MarketId, p: NewOrderParams, pl: Placement, now: nat)
    requires Sound(z, s)
    requires NewOrder(z, s, caller, mid, p, Some(pl), now).Ok?
    requires pl.openQty > 0
    requires mid in s.markets && EntriesFit(z, s.markets[mid].terms) && OwedFits(s, s.markets[mid].terms)
    ensures CancelOrder(z, NewOrder(z, s, caller, mid, p, Some(pl), now).value, caller, mid, pl.id).Ok?
  {
    hide NewOrder, CancelOrder, TakeOrder, Sound, Has, EntriesFit, Prepare, SettleTrade, SettleTaker, EngineOk, NewBook, Covered, ToLots,
         TotalQty, Liabilities, PlacedSurplus, OrderIsExact, ValidOrder;
    var posted := NewOrder(z, s, caller, mid, p, Some(pl), now).value;
    var t := s.markets[mid].terms;
    var o, tr, taker := OrderUnfolds(z, s, caller, mid, p, Some(pl), now);
    OrderKeepsSound(z, s, caller, mid, p, Some(pl), now);
    OrderNeedsTrading(z, s, caller, mid, p, Some(pl), now);
    PostedIsRemembered(z, s, caller, mid, p, pl, now);
    OrderMovesGap(z, s, caller, mid, p, Some(pl), now, t.baseToken);
    OrderMovesGap(z, s, caller, mid, p, Some(pl), now, t.quoteToken);
    assert OwedFits(posted, posted.markets[mid].terms);
    hide OwedFits;
    CancelSucceeds(z, posted, caller, mid, pl.id);
  }

  /** A trade without fills moves nothing. */
  lemma EmptyTrade(z: Sizes, t: Terms, mid: MarketId, side: Side, accounts: Accounts, referrer: Option<AccountId>, fees: nat,
                   a: AccountId, token: Token)
    requires SettleTrade(z, t, mid, side, accounts, [], referrer, fees).Ok?
    ensures var tr := SettleTrade(z, t, mid, side, accounts, [], referrer, fees).value;
      && tr.base == tr.quote == tr.fee == tr.referral == 0
      && (a in tr.accounts <==> a in accounts)
      && BalanceAt(tr.accounts, a, token) == BalanceAt(accounts, a, token)
  {
    hide SettleTrade, BalanceAt, TotalBalance;
    TradeEffect(z, t, mid, side, accounts, [], referrer, fees, a, token);
    FeeSplitIsTotal(z, t, mid, side, accounts, [], referrer, fees);
  }

  /** What a posted, unfilled order changes: its owner's escrowed amount, and nothing else. */
  lemma PostingLedger(z: Sizes, s: State, caller: AccountId, mid: MarketId, p: NewOrderParams, pl: Placement, now: nat,
                      o: EngineOrder, tr: Trade, taker: VAccount, posted: State, a: AccountId, token: Token)
    requires OrderParts(z, s, caller, mid, p, pl, now, o, tr, taker, posted)
    requires pl.fills == [] && pl.openQty > 0
    ensures BalanceAt(posted.accounts, a, token) == BalanceAt(s.accounts, a, token)
      - (if a == caller && token == EscrowToken(s.markets[mid].terms, p.side)
         then LockedFor(s.markets[mid].terms, p.side, p.limitPrice, pl.openQty) else 0)
    ensures (a in s.accounts <==> a in posted.accounts)
    ensures a in s.accounts && a != caller ==> posted.accounts[a].openOrders == s.accounts[a].openOrders
  {
    hide SettleTrade, SettleTaker, Prepare, EngineOk, NewBook, LockedFor, Balance, ListPosted, Covered, ValidOrder;
    var m := s.markets[mid];
    EmptyTrade(z, m.terms, mid, o.side, s.accounts, p.referrer, m.feesAccrued, a, token);
    EmptyTradeLists(z, m.terms, mid, o.side, s.accounts, p.referrer, m.feesAccrued, a);
    TakerEffect(m.terms, m.book, mid, caller, p, o, pl, tr, s.accounts[caller], now, token);
  }

  lemma EmptyTradeLists(z: Sizes, t: Terms, mid: MarketId, side: Side, accounts: Accounts, referrer: Option<AccountId>, fees: nat, a: AccountId)
    requires SettleTrade(z, t, mid, side, accounts, [], referrer, fees).Ok?
    ensures var after := SettleTrade(z, t, mid, side, accounts, [], referrer, fees).value.accounts;
      && (a in accounts <==> a in after)
      && (a in accounts ==> after[a].openOrders == accounts[a].openOrders)
  {
    hide Covered, SettleReferrer;
    var tr := SettleTrade(z, t, mid, side, accounts, [], referrer, fees).value;
    ReferrerCases(z, t.quoteToken, accounts, referrer, tr.fee - tr.rebate, t.quoteToken);
  }

  /** The posted order is what a cancel of its id takes off the book. */
  lemma PostedIsTaken(z: Sizes, s: State, caller: AccountId, mid: MarketId, p: NewOrderParams, pl: Placement, now: nat,
                      o: EngineOrder, tr: Trade, taker: VAccount, posted: State)
    requires Sound(z, s) && Sound(z, posted)
    requires OrderParts(z, s, caller, mid, p, pl, now, o, tr, taker, posted)
    requires pl.openQty > 0
    ensures o.limitPrice.Some?
    ensures TakeOrder(posted.markets[mid].book, pl.id).Some?
    ensures TakeOrder(posted.markets[mid].book, pl.id).value.1 == Pending(p.side, PostedOrder(caller, o, pl))
  {
    var m := s.markets[mid];
    var filled := FilledBook(m.book, o.side, pl.fills);
    MarketOf(z, s, mid);
    MarketOf(z, posted, mid);
    FillsShrink(m.terms.lots, caller, o.side, o.limitPrice, m.book, pl.fills);
    ShrinkKeeps(m.terms.lots, m.book, filled, s.prevSequence);
    assert BookGet(filled, pl.id).None?;
    InsertLookup(Resting(filled, o.side), pl.rank, PostedOrder(caller, o, pl), pl.id);
    BookGetSide(posted.markets[mid].book, o.side, pl.id);
    hide SettleTrade, SettleTaker, Prepare, FillsOk, Sound, Shrinks, Insert, AfterFills, Covered, BookOk, IndexAgrees, ValidOrder;
  }

  /**
   * A posted order is on the book at its price in lots with its open quantity, and its owner remembers
   * the time and the original size: all that was filled and rests, and no more than was asked for.
   */
  lemma PostedIsRemembered(z: Sizes, s: State, caller: AccountId, mid: MarketId, p: NewOrderParams, pl: Placement, now: nat)
    requires Sound(z, s)
    requires NewOrder(z, s, caller, mid, p, Some(pl), now).Ok?
    requires pl.openQty > 0
    ensures mid in s.markets && p.limitPrice.Some?
    ensures var after := NewOrder(z, s, caller, mid, p, Some(pl), now).value;
      var lots := s.markets[mid].terms.lots;
      && mid in after.markets
      && TakeOrder(after.markets[mid].book, pl.id).Some?
      && TakeOrder(after.markets[mid].book, pl.id).value.1
         == Pending(p.side, Order(pl.id, caller, ToLots(p.limitPrice.value, lots.quote), pl.openQty))
      && caller in after.accounts && Has(after.accounts[caller], mid, pl.id)
      && var info := after.accounts[caller].openOrders[mid][pl.id];
         && info.timestamp == now
         && TotalQty(pl.fills) + pl.openQty <= info.originalQty <= ToLots(p.quantity, lots.base)
         && (p.side == Sell ==> info.originalQty == ToLots(p.quantity, lots.base))
  {
    hide NewOrder, TakeOrder, Sound, Prepare, SettleTrade, SettleTaker, FillsOk, TotalQuote, TotalQty, NewBook, Covered, TakerNet, ToLots, ValidOrder;
    var after := NewOrder(z, s, caller, mid, p, Some(pl), now).value;
    var o, tr, taker := OrderUnfolds(z, s, caller, mid, p, Some(pl), now);
    var t, b := s.markets[mid].terms, s.markets[mid].book;
    OrderKeepsSound(z, s, caller, mid, p, Some(pl), now);
    PostedIsTaken(z, s, caller, mid, p, pl, now, o, tr, taker, after);
    PreparedOrder(t, b, p, o);
    TakerEffect(t, b, mid, caller, p, o, pl, tr, s.accounts[caller], now, t.quoteToken);
  }

  lemma CancelLists(z: Sizes, s: State, account: AccountId, mid: MarketId, id: OrderId, x: AccountId)
    requires CancelOrder(z, s, account, mid, id).Ok?
    ensures var after := CancelOrder(z, s, account, mid, id).value;
      && account in s.accounts && account in after.accounts
      && after.accounts[account].openOrders == RemoveOrderInfo(s.accounts[account], mid, id).openOrders
      && (x != account && x in s.accounts ==> x in after.accounts && after.accounts[x] == s.accounts[x])
  {
    hide Covered, RefundOne, TakeOrder;
    var m := s.markets[mid];
    var p := TakeOrder(m.book, id).value.1;
    var unlisted := RemoveOrderInfo(s.accounts[account], mid, id);
    assert [p][..0] == [];
    assert ProcessRefunds(m.terms, mid, account, unlisted, [p]) == RefundOne(m.terms, mid, account, unlisted, p);
    RefundOneEffect(m.terms, mid, account, unlisted, p, m.terms.quoteToken);
    RemoveHas(s.accounts[account], mid, id, mid, id);
    TakenId(m.book, id);
  }

  lemma TakenId(b: Book, id: OrderId)
    requires TakeOrder(b, id).Some?
    ensures TakeOrder(b, id).value.1.order.id == id
  {
    LookupHasId(b.asks, id);
    LookupHasId(b.bids, id);
  }

  /** Unlisting the posted order gives the owner's list back. */
  lemma RelistedAsBefore(z: Sizes, s: State, caller: AccountId, mid: MarketId, p: NewOrderParams, pl: Placement, now: nat,
                         o: EngineOrder, tr: Trade, taker: VAccount, posted: State)
    requires Sound(z, s)
    requires OrderParts(z, s, caller, mid, p, pl, now, o, tr, taker, posted)
    requires pl.openQty > 0
    ensures RemoveOrderInfo(posted.accounts[caller], mid, pl.id).openOrders == s.accounts[caller].openOrders
  {
    var m, a := s.markets[mid], s.accounts[caller];
    TakerEffect(m.terms, m.book, mid, caller, p, o, pl, tr, a, now, m.terms.quoteToken);
    MarketOf(z, s, mid);
    hide SettleTrade, SettleTaker, Prepare, EngineOk, NewBook, TakerNet, Covered, BookOk, ValidOrder;
    assert Lists(s.accounts, caller, mid, pl.id) <==> OwnerOf(m.book, pl.id) == Some(caller);
    assert !Has(a, mid, pl.id) by {
      EngineId(s, caller, mid, p, pl, o);
    }
    if mid in a.openOrders {
      ShapeOfOne(s.accounts, Caps(s.markets), caller, mid);
    }
    SaveThenRemove(a, mid, pl.id, OrderInfo(o.maxQty, now), m.terms.maxOrders);
    SameListsRemove(posted.accounts[caller], SaveNewOrderInfo(a, mid, pl.id, OrderInfo(o.maxQty, now), m.terms.maxOrders).value, mid, pl.id);
  }

  lemma EngineId(s: State, caller: AccountId, mid: MarketId, p: NewOrderParams, pl: Placement, o: EngineOrder)
    requires mid in s.markets
    requires EngineOk(s.markets[mid].terms.lots, s.markets[mid].book, caller, o, pl)
    requires o.sequence == s.prevSequence + 1
    ensures pl.id == OrderId(s.prevSequence + 1)
  {
  }

  lemma SameListsRemove(a: VAccount, b: VAccount, mid: MarketId, id: OrderId)
    requires a.openOrders == b.openOrders
    ensures RemoveOrderInfo(a, mid, id).openOrders == RemoveOrderInfo(b, mid, id).openOrders
  {
  }
}

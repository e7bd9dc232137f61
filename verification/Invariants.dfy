/** What holds in every reachable state, kept by every call. */
module Invariants {
  import opened Arithmetic
  import opened Exchange
  import opened Fees
  import opened Ledger
  import opened MatchingEngine
  import opened OrderBook
  import opened OrderIndex
  import opened Orders
  import opened Outcomes
  import opened Settlement
  import opened Solvency
  import opened StoredAccount
  import opened StoredMarket
  import opened Types

  function Caps(markets: Markets): map<MarketId, nat> {
    map mid | mid in markets :: markets[mid].terms.maxOrders
  }

  /** No order carries a sequence number that has not been handed out. */
  ghost predicate Numbered(b: Book, n: nat) {
    forall id :: BookGet(b, id).Some? ==> id.sequence <= n
  }

  /** The products in the refund of a bid fit the integers they are computed in. */
  predicate BidFits(lots: Lots, o: Order) {
    && o.openQty * UnitValue(lots, o.price) < TWO_256
    && o.openQty * lots.base < TWO_128
  }

  ghost predicate BidsFit(lots: Lots, b: Book) {
    forall id :: Lookup(b.bids, id).Some? ==> BidFits(lots, Lookup(b.bids, id).value)
  }

  ghost predicate MarketOk(accounts: Accounts, mid: MarketId, m: VMarket, n: nat) {
    && BookOk(m.book)
    && IndexAgrees(accounts, mid, m.book)
    && Numbered(m.book, n)
    && BidsFit(m.terms.lots, m.book)
  }

  ghost predicate MarketsOk(accounts: Accounts, markets: Markets, n: nat) {
    forall mid :: mid in markets ==> MarketOk(accounts, mid, markets[mid], n)
  }

  /** Sequence numbers are handed out once for all markets together. */
  ghost predicate NoSharedIds(markets: Markets) {
    forall x, y, id :: x in markets && y in markets && x != y && BookGet(markets[x].book, id).Some? ==>
      BookGet(markets[y].book, id).None?
  }

  /** The structural part of the invariant. */
  ghost predicate Sound(z: Sizes, s: State) {
    && AllCovered(z, s.accounts)
    && ShapesOk(s.accounts, Caps(s.markets))
    && MarketsOk(s.accounts, s.markets, s.prevSequence)
    && NoSharedIds(s.markets)
    && TotalStorage(s.accounts) == s.storageHeld
  }

  // ---------- Books that only lose lots ----------

  ghost predicate Shrinks(b: Book, c: Book) {
    forall side, id :: Lookup(Resting(c, side), id).Some? ==>
      && Lookup(Resting(b, side), id).Some?
      && var o, o' := Lookup(Resting(b, side), id).value, Lookup(Resting(c, side), id).value;
         o'.price == o.price && o'.owner == o.owner && o'.openQty <= o.openQty
  }

  lemma ReduceShrinks(b: Book, side: Side, id: OrderId, qty: nat)
    requires BookOk(b)
    requires Lookup(Resting(b, side), id).Some?
    ensures Shrinks(b, WithResting(b, side, Reduce(Resting(b, side), id, qty)))
  {
    var c := WithResting(b, side, Reduce(Resting(b, side), id, qty));
    forall other, i | Lookup(Resting(c, other), i).Some?
      ensures Lookup(Resting(b, other), i).Some?
      ensures var o, o' := Lookup(Resting(b, other), i).value, Lookup(Resting(c, other), i).value;
        o'.price == o.price && o'.owner == o.owner && o'.openQty <= o.openQty
    {
      ReduceLookup(Resting(b, side), id, qty, i);
    }
  }

  lemma {:induction false} FillsShrink(lots: Lots, taker: AccountId, side: Side, limit: Option<nat>, b: Book, fills: seq<Fill>)
    requires BookOk(b)
    requires FillsOk(lots, taker, side, limit, Resting(b, Opposite(side)), fills)
    ensures BookOk(FilledBook(b, side, fills))
    ensures Shrinks(b, FilledBook(b, side, fills))
  {
    if fills != [] {
      var c := FilledBook(b, side, Init(fills));
      FillsShrink(lots, taker, side, limit, b, Init(fills));
      ReduceBook(c, Opposite(side), Last(fills).makerOrder, Last(fills).qty);
      ReduceShrinks(c, Opposite(side), Last(fills).makerOrder, Last(fills).qty);
      assert FilledBook(b, side, fills)
          == WithResting(c, Opposite(side), Reduce(Resting(c, Opposite(side)), Last(fills).makerOrder, Last(fills).qty));
      hide Lookup;
    }
  }

  lemma ShrinkKeeps(lots: Lots, b: Book, c: Book, n: nat)
    requires BookOk(c) && Shrinks(b, c)
    requires Numbered(b, n) && BidsFit(lots, b)
    ensures Numbered(c, n) && BidsFit(lots, c)
    ensures forall id :: BookGet(c, id).Some? ==> BookGet(b, id).Some?
  {
    forall id | BookGet(c, id).Some?
      ensures BookGet(b, id).Some?
    {
      assert Lookup(Resting(c, Buy), id).Some? || Lookup(Resting(c, Sell), id).Some?;
    }
    forall id | Lookup(c.bids, id).Some?
      ensures BidFits(lots, Lookup(c.bids, id).value)
    {
      assert Lookup(Resting(c, Buy), id).Some?;
      assert BidFits(lots, Lookup(b.bids, id).value);
      SmallerBidFits(lots, Lookup(b.bids, id).value, Lookup(c.bids, id).value);
    }
  }

  lemma SmallerBidFits(lots: Lots, o: Order, o': Order)
    requires BidFits(lots, o)
    requires o'.price == o.price && o'.openQty <= o.openQty
    ensures BidFits(lots, o')
  {
    MulMonotone(o'.openQty, o.openQty, UnitValue(lots, o.price));
    MulMonotone(o'.openQty, o.openQty, lots.base);
  }

  // ---------- One market at a time ----------

  /** Changing one market and the listings of that market alone keeps the markets in order. */
  lemma MarketStep(s: State, accounts: Accounts, mid: MarketId, m: VMarket, n: nat)
    requires MarketsOk(s.accounts, s.markets, s.prevSequence) && NoSharedIds(s.markets)
    requires mid in s.markets && n >= s.prevSequence
    requires SameElsewhere(s.accounts, accounts, mid)
    requires MarketOk(accounts, mid, m, n)
    requires forall id :: BookGet(m.book, id).Some? ==> BookGet(s.markets[mid].book, id).Some? || id.sequence > s.prevSequence
    requires m.terms == s.markets[mid].terms
    ensures MarketsOk(accounts, s.markets[mid := m], n)
    ensures NoSharedIds(s.markets[mid := m])
    ensures Caps(s.markets[mid := m]) == Caps(s.markets)
  {
    hide BookGet;
    var markets := s.markets[mid := m];
    forall x | x in markets
      ensures MarketOk(accounts, x, markets[x], n)
    {
      if x != mid {
        assert MarketOk(s.accounts, x, s.markets[x], s.prevSequence);
        AgreesElsewhere(s.accounts, accounts, mid, x, markets[x].book);
      }
    }
    forall x, y, id | x in markets && y in markets && x != y && BookGet(markets[x].book, id).Some?
      ensures BookGet(markets[y].book, id).None?
    {
      if x != mid {
        assert MarketOk(s.accounts, x, s.markets[x], s.prevSequence);
      }
      if y != mid {
        assert MarketOk(s.accounts, y, s.markets[y], s.prevSequence);
      }
    }
  }

  lemma AgreesElsewhere(x: Accounts, y: Accounts, mid: MarketId, other: MarketId, b: Book)
    requires SameElsewhere(x, y, mid) && other != mid
    requires IndexAgrees(x, other, b)
    ensures IndexAgrees(y, other, b)
  {
    forall a, id
      ensures Lists(y, a, other, id) <==> OwnerOf(b, id) == Some(a)
    {
      assert Lists(x, a, other, id) <==> Lists(y, a, other, id);
    }
  }

  /** Changes that touch no listing keep every market in order. */
  lemma SameListsStep(s: State, accounts: Accounts)
    requires MarketsOk(s.accounts, s.markets, s.prevSequence)
    requires SameLists(s.accounts, accounts)
    ensures MarketsOk(accounts, s.markets, s.prevSequence)
  {
    forall mid | mid in s.markets
      ensures MarketOk(accounts, mid, s.markets[mid], s.prevSequence)
    {
      AgreesWithSameLists(s.accounts, accounts, mid, s.markets[mid].book);
    }
  }

  // ---------- Trades ----------

  /** The maker and referrer phases leave the books and lists in step, and every account in order. */
  lemma TradeKeeps(z: Sizes, t: Terms, mid: MarketId, side: Side, accounts: Accounts, fills: seq<Fill>, referrer: Option<AccountId>, fees: nat,
                   taker: AccountId, limit: Option<nat>, b: Book, caps: map<MarketId, nat>)
    requires AllCovered(z, accounts) && ShapesOk(accounts, caps)
    requires BookOk(b) && IndexAgrees(accounts, mid, b)
    requires FillsOk(t.lots, taker, side, limit, Resting(b, Opposite(side)), fills)
    requires SettleTrade(z, t, mid, side, accounts, fills, referrer, fees).Ok?
    ensures var tr := SettleTrade(z, t, mid, side, accounts, fills, referrer, fees).value;
      && AllCovered(z, tr.accounts) && ShapesOk(tr.accounts, caps)
      && SameDeposits(accounts, tr.accounts)
      && IndexAgrees(tr.accounts, mid, FilledBook(b, side, fills))
      && SameElsewhere(accounts, tr.accounts, mid)
  {
    hide Covered, SettleMakers, SettleReferrer, TotalBalance, IndexShape, BookOk;
    var s := SettleMakers(z, t, mid, side, accounts, fills).value;
    var tr := SettleTrade(z, t, mid, side, accounts, fills, referrer, fees).value;
    MakersKeepAccounts(z, t, mid, side, accounts, fills, caps);
    MakersKeepIndex(z, t, mid, side, accounts, fills, taker, limit, b);
    ReferrerEffect(z, t.quoteToken, s.accounts, referrer, tr.fee - s.rebate, t.quoteToken, caps);
    AgreesWithSameLists(s.accounts, tr.accounts, mid, FilledBook(b, side, fills));
    forall a, other, id | other != mid
      ensures Lists(accounts, a, other, id) <==> Lists(tr.accounts, a, other, id)
    {
      assert Lists(s.accounts, a, other, id) <==> Lists(tr.accounts, a, other, id);
    }
  }

  lemma {:induction false} NonMakerUntouched(z: Sizes, t: Terms, mid: MarketId, side: Side, accounts: Accounts, fills: seq<Fill>,
                                             taker: AccountId, limit: Option<nat>, os: seq<Order>)
    requires FillsOk(t.lots, taker, side, limit, os, fills)
    requires SettleMakers(z, t, mid, side, accounts, fills).Ok?
    requires taker in accounts
    ensures var after := SettleMakers(z, t, mid, side, accounts, fills).value.accounts;
      taker in after && after[taker] == accounts[taker]
  {
    hide SettleFill;
    if fills != [] {
      NonMakerUntouched(z, t, mid, side, accounts, Init(fills), taker, limit, os);
      SettleFillEffect(z, t, mid, side, SettleMakers(z, t, mid, side, accounts, Init(fills)).value, Last(fills), t.quoteToken);
    }
  }

  /** The taker's stored account keeps its lists while makers and referrer are settled. */
  lemma TakerListsUntouched(z: Sizes, t: Terms, mid: MarketId, side: Side, accounts: Accounts, fills: seq<Fill>, referrer: Option<AccountId>,
                            fees: nat, taker: AccountId, limit: Option<nat>, os: seq<Order>)
    requires FillsOk(t.lots, taker, side, limit, os, fills)
    requires SettleTrade(z, t, mid, side, accounts, fills, referrer, fees).Ok?
    requires taker in accounts
    ensures var after := SettleTrade(z, t, mid, side, accounts, fills, referrer, fees).value.accounts;
      && taker in after
      && after[taker].openOrders == accounts[taker].openOrders
      && after[taker].storageBalance == accounts[taker].storageBalance
      && (referrer != Some(taker) ==> after[taker] == accounts[taker])
  {
    hide Covered, SettleMakers, SettleReferrer;
    var s := SettleMakers(z, t, mid, side, accounts, fills).value;
    var tr := SettleTrade(z, t, mid, side, accounts, fills, referrer, fees).value;
    NonMakerUntouched(z, t, mid, side, accounts, fills, taker, limit, os);
    ReferrerCases(z, t.quoteToken, s.accounts, referrer, tr.fee - s.rebate, t.quoteToken);
  }

  // ---------- New orders ----------

  /** A posted bid's refund can be computed, because its lock could. */
  lemma PostedBidFits(t: Terms, b: Book, mid: MarketId, p: NewOrderParams, o: EngineOrder, pl: Placement, tr: Trade, taker: VAccount, now: nat, caller: AccountId)
    requires ValidOrder(p)
    requires p.side == Buy && !p.orderType.Market?
    requires Prepare(t, b, p, o.sequence) == Ok(o)
    requires SettleLimitBuy(t, mid, p, o, pl, tr, taker, now).Ok?
    ensures o.limitPrice.Some? && BidFits(t.lots, Order(pl.id, caller, o.limitPrice.value, pl.openQty))
  {
    hide LockAt, Deposit, Withdraw, ListPosted, MaxBidDebit, UnitValue, ToLots;
    PreparedOrder(t, b, p, o);
    LotsWithin(p.limitPrice.value, t.lots.quote);
    ProductWithinLock(t.lots, p.limitPrice.value, o.limitPrice.value, pl.openQty);
  }

  /** The book and the lists after an order is matched, before what remains of it is posted. */
  lemma MatchingKeepsMarket(z: Sizes, s: State, caller: AccountId, mid: MarketId, p: NewOrderParams, pl: Placement, now: nat,
                            o: EngineOrder, tr: Trade, taker: VAccount, after: State)
    requires Sound(z, s)
    requires OrderParts(z, s, caller, mid, p, pl, now, o, tr, taker, after)
    ensures var m, filled := s.markets[mid], FilledBook(s.markets[mid].book, o.side, pl.fills);
      && BookOk(filled) && IndexAgrees(tr.accounts, mid, filled) && Numbered(filled, s.prevSequence) && BidsFit(m.terms.lots, filled)
      && (forall id :: BookGet(filled, id).Some? ==> BookGet(m.book, id).Some?)
    ensures ShapesOk(tr.accounts, Caps(s.markets))
    ensures SameElsewhere(s.accounts, tr.accounts, mid)
    ensures caller in tr.accounts && tr.accounts[caller].openOrders == s.accounts[caller].openOrders
  {
    hide SettleTrade, SettleTaker, Prepare, IndexShape, Covered, NewBook, ValidOrder, FillsOk, BidFits, Caps, FilledBook;
    var m := s.markets[mid];
    var t, b := m.terms, m.book;
    assert MarketOk(s.accounts, mid, m, s.prevSequence);
    TradeKeeps(z, t, mid, o.side, s.accounts, pl.fills, p.referrer, m.feesAccrued, caller, o.limitPrice, b, Caps(s.markets));
    TakerListsUntouched(z, t, mid, o.side, s.accounts, pl.fills, p.referrer, m.feesAccrued, caller, o.limitPrice, Resting(b, Opposite(o.side)));
    FillsShrink(t.lots, caller, o.side, o.limitPrice, b, pl.fills);
    ShrinkKeeps(t.lots, b, FilledBook(b, o.side, pl.fills), s.prevSequence);
  }

  lemma OrderFitsIfBid(z: Sizes, s: State, caller: AccountId, mid: MarketId, p: NewOrderParams, pl: Placement, now: nat,
                       o: EngineOrder, tr: Trade, taker: VAccount, after: State)
    requires OrderParts(z, s, caller, mid, p, pl, now, o, tr, taker, after)
    requires pl.openQty > 0
    ensures o.limitPrice.Some?
    ensures o.side == Buy ==> BidFits(s.markets[mid].terms.lots, PostedOrder(caller, o, pl))
  {
    hide SettleTrade, Covered, NewBook, BidFits;
    var m := s.markets[mid];
    PreparedOrder(m.terms, m.book, p, o);
    if o.side == Buy {
      hide SettleLimitBuy, Prepare;
      PostedBidFits(m.terms, m.book, mid, p, o, pl, tr, s.accounts[caller], now, caller);
    }
  }

  /** The book and the lists after the taker's own part of an order. */
  lemma OrderKeepsMarket(z: Sizes, s: State, caller: AccountId, mid: MarketId, p: NewOrderParams, pl: Placement, now: nat,
                         o: EngineOrder, tr: Trade, taker: VAccount, after: State)
    requires Sound(z, s)
    requires OrderParts(z, s, caller, mid, p, pl, now, o, tr, taker, after)
    ensures MarketOk(after.accounts, mid, after.markets[mid], after.prevSequence)
    ensures SameElsewhere(s.accounts, after.accounts, mid)
    ensures ShapesOk(after.accounts, Caps(s.markets))
    ensures forall id :: BookGet(after.markets[mid].book, id).Some? ==>
      BookGet(s.markets[mid].book, id).Some? || id.sequence > s.prevSequence
  {
    hide Sound, SettleTrade, SettleTaker, Shrinks, Prepare, BookOk, BidFits, IndexShape, Covered, FillsOk, TakerNet, FilledBook;
    var m := s.markets[mid];
    var t, b, caps := m.terms, m.book, Caps(s.markets);
    var filled := FilledBook(b, o.side, pl.fills);
    MatchingKeepsMarket(z, s, caller, mid, p, pl, now, o, tr, taker, after);
    TakerEffect(t, b, mid, caller, p, o, pl, tr, s.accounts[caller], now, t.quoteToken);
    if pl.openQty == 0 {
      TakerUnlisted(tr.accounts, caller, taker, mid, filled, caps);
    } else {
      OrderFitsIfBid(z, s, caller, mid, p, pl, now, o, tr, taker, after);
      PostKeeps(tr.accounts, caller, taker, mid, OrderInfo(o.maxQty, now), t.maxOrders, PostedOrder(caller, o, pl),
                filled, o.side, pl.rank, t.lots, s.prevSequence, caps);
    }
    SameElsewhereChain(s.accounts, tr.accounts, after.accounts, mid);
  }

  lemma SameElsewhereChain(x: Accounts, y: Accounts, w: Accounts, mid: MarketId)
    requires SameElsewhere(x, y, mid) && SameElsewhere(y, w, mid)
    ensures SameElsewhere(x, w, mid)
  {
    forall a, other, id | other != mid
      ensures Lists(x, a, other, id) <==> Lists(w, a, other, id)
    {
      assert Lists(x, a, other, id) <==> Lists(y, a, other, id);
    }
  }

  lemma TakerUnlisted(accounts: Accounts, a: AccountId, after: VAccount, mid: MarketId, b: Book, caps: map<MarketId, nat>)
    requires a in accounts && after.openOrders == accounts[a].openOrders
    requires IndexAgrees(accounts, mid, b) && ShapesOk(accounts, caps)
    ensures IndexAgrees(accounts[a := after], mid, b)
    ensures SameElsewhere(accounts, accounts[a := after], mid)
    ensures ShapesOk(accounts[a := after], caps)
  {
    SameListsUpdate(accounts, a, after);
    AgreesWithSameLists(accounts, accounts[a := after], mid, b);
    RemoveKeepsShapes(accounts, caps, a, after, mid, OrderId(0));
  }

  lemma PostKeeps(accounts: Accounts, a: AccountId, after: VAccount, mid: MarketId, info: OrderInfo, cap: nat, o: Order,
                  b: Book, side: Side, rank: nat, lots: Lots, n: nat, caps: map<MarketId, nat>)
    requires a in accounts && o.owner == a && o.id.sequence == n + 1 && o.openQty > 0
    requires BookOk(b) && IndexAgrees(accounts, mid, b) && Numbered(b, n) && BidsFit(lots, b)
    requires side == Buy ==> BidFits(lots, o)
    requires mid in caps && caps[mid] == cap && ShapesOk(accounts, caps)
    requires SaveNewOrderInfo(accounts[a], mid, o.id, info, cap).Ok?
    requires after.openOrders == SaveNewOrderInfo(accounts[a], mid, o.id, info, cap).value.openOrders
    ensures var c := WithResting(b, side, Insert(Resting(b, side), rank, o));
      && BookOk(c) && IndexAgrees(accounts[a := after], mid, c) && Numbered(c, n + 1) && BidsFit(lots, c)
      && (forall id :: BookGet(c, id).Some? ==> BookGet(b, id).Some? || id == o.id)
    ensures SameElsewhere(accounts, accounts[a := after], mid)
    ensures ShapesOk(accounts[a := after], caps)
  {
    hide BidFits, IndexShape;
    assert BookGet(b, o.id).None?;
    InsertBook(b, side, rank, o);
    var c := WithResting(b, side, Insert(Resting(b, side), rank, o));
    PostOrder(accounts, a, after, mid, info, cap, o, b, c);
    forall id | Lookup(c.bids, id).Some?
      ensures BidFits(lots, Lookup(c.bids, id).value)
    {
      if side == Buy {
        InsertLookup(b.bids, rank, o, id);
      }
    }
    forall other | other in after.openOrders
      ensures other in caps && IndexShape(after, other, caps[other])
    {
      if other == mid {
        ShapeAt(accounts, caps, a, mid);
        SaveKeepsShape(accounts[a], mid, o.id, info, cap);
        SameShape(SaveNewOrderInfo(accounts[a], mid, o.id, info, cap).value, after, mid, cap);
      } else {
        ShapeOfOne(accounts, caps, a, other);
        SameShapeAt(accounts[a], after, other, caps[other]);
      }
    }
    ShapeUpdate(accounts, caps, a, after);
  }

  lemma ShapeAt(accounts: Accounts, caps: map<MarketId, nat>, a: AccountId, mid: MarketId)
    requires ShapesOk(accounts, caps) && a in accounts && mid in caps
    ensures IndexShape(accounts[a], mid, caps[mid])
  {
  }

  lemma SameShape(a: VAccount, b: VAccount, mid: MarketId, cap: nat)
    requires a.openOrders == b.openOrders && IndexShape(a, mid, cap)
    ensures IndexShape(b, mid, cap)
  {
  }

  lemma SameShapeAt(a: VAccount, b: VAccount, mid: MarketId, cap: nat)
    requires mid in a.openOrders && mid in b.openOrders && a.openOrders[mid] == b.openOrders[mid]
    requires IndexShape(a, mid, cap)
    ensures IndexShape(b, mid, cap)
  {
  }

  lemma OrderKeepsSound(z: Sizes, s: State, caller: AccountId, mid: MarketId, p: NewOrderParams, placed: Option<Placement>, now: nat)
    requires Sound(z, s)
    requires NewOrder(z, s, caller, mid, p, placed, now).Ok?
    ensures Sound(z, NewOrder(z, s, caller, mid, p, placed, now).value)
  {
    hide NewOrder;
    var after := NewOrder(z, s, caller, mid, p, placed, now).value;
    var o, tr, taker := OrderUnfolds(z, s, caller, mid, p, placed, now);
    OrderKeepsMarket(z, s, caller, mid, p, placed.value, now, o, tr, taker, after);
    MarketStep(s, after.accounts, mid, after.markets[mid], after.prevSequence);
    OrderKeepsDeposits(z, s, caller, mid, p, placed.value, now, o, tr, taker, after);
  }

  lemma OrderKeepsDeposits(z: Sizes, s: State, caller: AccountId, mid: MarketId, p: NewOrderParams, pl: Placement, now: nat,
                           o: EngineOrder, tr: Trade, taker: VAccount, after: State)
    requires Sound(z, s)
    requires OrderParts(z, s, caller, mid, p, pl, now, o, tr, taker, after)
    ensures AllCovered(z, after.accounts)
    ensures SameDeposits(s.accounts, after.accounts)
    ensures TotalStorage(after.accounts) == TotalStorage(s.accounts)
  {
    var m := s.markets[mid];
    assert MarketOk(s.accounts, mid, m, s.prevSequence);
    TradeKeeps(z, m.terms, mid, o.side, s.accounts, pl.fills, p.referrer, m.feesAccrued, caller, o.limitPrice, m.book, Caps(s.markets));
    TakerEffect(m.terms, m.book, mid, caller, p, o, pl, tr, s.accounts[caller], now, m.terms.quoteToken);
    hide SettleTrade, SettleTaker, Prepare, EngineOk, Covered, TakerNet, ShapesOk, MarketsOk, MarketOk, IndexAgrees, SameElsewhere,
         ListPosted, AllCovered, NewBook, ValidOrder;
    PutKeepsDeposits(z, s.accounts, tr.accounts, caller, taker);
    SameDepositsTotal(s.accounts, after.accounts);
  }

  lemma PutKeepsDeposits(z: Sizes, before: Accounts, accounts: Accounts, a: AccountId, after: VAccount)
    requires AllCovered(z, accounts) && SameDeposits(before, accounts)
    requires a in before && after.storageBalance == before[a].storageBalance
    requires Covered(z, after)
    ensures AllCovered(z, accounts[a := after]) && SameDeposits(before, accounts[a := after])
  {
    hide Covered;
  }

  // ---------- Swaps ----------

  lemma HopKeepsSound(z: Sizes, s: State, signer: AccountId, token: Token, amount: nat, h: Hop)
    requires Sound(z, s)
    requires SwapHop(z, s, signer, token, amount, h).Ok?
    ensures Sound(z, SwapHop(z, s, signer, token, amount, h).value.state)
    ensures SwapHop(z, s, signer, token, amount, h).value.state.sends == s.sends
  {
    hide SwapHop;
    var c := SwapHop(z, s, signer, token, amount, h).value;
    var o, tr := HopUnfolds(z, s, signer, token, amount, h);
    var m, pl := s.markets[h.market], h.placed.value;
    var filled := FilledBook(m.book, o.side, pl.fills);
    assert MarketOk(s.accounts, h.market, m, s.prevSequence);
    SwapOrderShape(m.terms, h.side, amount, s.prevSequence + 1);
    TradeKeeps(z, m.terms, h.market, o.side, s.accounts, pl.fills, h.referrer, m.feesAccrued, signer, o.limitPrice, m.book, Caps(s.markets));
    FillsShrink(m.terms.lots, signer, o.side, o.limitPrice, m.book, pl.fills);
    ShrinkKeeps(m.terms.lots, m.book, filled, s.prevSequence);
    assert NewBook(m.book, signer, o, pl) == filled;
    SameDepositsTotal(s.accounts, tr.accounts);
    hide SettleTrade, SwapOrder, SwapOutput, SwapRefund, FillsOk, Shrinks, Covered, ShapesOk, BidsFit, BookOk, Numbered;
    NumberedLater(filled, s.prevSequence);
    MarketStep(s, tr.accounts, h.market, c.state.markets[h.market], s.prevSequence + 1);
  }

  lemma NumberedLater(b: Book, n: nat)
    requires Numbered(b, n)
    ensures Numbered(b, n + 1)
  {
  }

  lemma {:induction false} ChainKeepsSound(z: Sizes, s: State, signer: AccountId, token: Token, amount: nat, hops: seq<Hop>)
    requires Sound(z, s)
    requires SwapChain(z, s, signer, token, amount, hops).Ok?
    ensures Sound(z, SwapChain(z, s, signer, token, amount, hops).value.state)
    ensures SwapChain(z, s, signer, token, amount, hops).value.state.sends == s.sends
  {
    hide SwapHop, Sound;
    if hops != [] {
      var n := |hops| - 1;
      ChainKeepsSound(z, s, signer, token, amount, hops[..n]);
      var c := SwapChain(z, s, signer, token, amount, hops[..n]).value;
      HopKeepsSound(z, c.state, signer, c.token, c.amount, hops[n]);
    }
  }

  lemma SwapsKeepSound(z: Sizes, s: State, signer: AccountId, sender: AccountId, token: Token, amount: nat, hops: seq<Hop>)
    requires Sound(z, s)
    requires ExecuteSwaps(z, s, signer, sender, token, amount, hops).Ok?
    ensures Sound(z, ExecuteSwaps(z, s, signer, sender, token, amount, hops).value)
  {
    hide SwapChain, AllCovered, ShapesOk, MarketsOk, NoSharedIds, TotalStorage;
    ChainKeepsSound(z, AddHeld(s, token, amount), signer, token, amount, hops);
  }

  // ---------- Cancels ----------

  lemma TakeOrderFacts(b: Book, id: OrderId)
    requires BookOk(b)
    requires TakeOrder(b, id).Some?
    ensures var (c, p) := TakeOrder(b, id).value;
      && Lookup(Resting(b, p.side), id) == Some(p.order)
      && p.order.id == id
      && BookGet(b, id) == Some(p.order)
      && BookOk(c) && Shrinks(b, c)
      && BookGet(c, id).None?
      && (forall other :: other != id ==> BookGet(c, other) == BookGet(b, other))
  {
    var (c, p) := TakeOrder(b, id).value;
    LookupHasId(Resting(b, p.side), id);
    BookGetSide(b, p.side, id);
    ReduceBook(b, p.side, id, p.order.openQty);
    ReduceShrinks(b, p.side, id, p.order.openQty);
    assert c == WithResting(b, p.side, Reduce(Resting(b, p.side), id, p.order.openQty));
  }

  /** Cancelling one order: the lists and the book lose the same order. */
  lemma CancelKeepsSound(z: Sizes, s: State, account: AccountId, mid: MarketId, id: OrderId)
    requires Sound(z, s)
    requires CancelOrder(z, s, account, mid, id).Ok?
    ensures Sound(z, CancelOrder(z, s, account, mid, id).value)
  {
    hide Covered, RefundOne;
    var after := CancelOrder(z, s, account, mid, id).value;
    var m := s.markets[mid];
    var (book, pending) := TakeOrder(m.book, id).value;
    var a := s.accounts[account];
    var unlisted := RemoveOrderInfo(a, mid, id);
    var refunded := ProcessRefunds(m.terms, mid, account, unlisted, [pending]).value;
    assert [pending][..0] == [];
    assert ProcessRefunds(m.terms, mid, account, unlisted, []) == Ok(unlisted);
    RefundOneEffect(m.terms, mid, account, unlisted, pending, m.terms.quoteToken);
    hide ProcessRefunds, TakeOrder;
    assert MarketOk(s.accounts, mid, m, s.prevSequence);
    TakeOrderFacts(m.book, id);
    RemoveHas(a, mid, id, mid, id);
    assert refunded.openOrders == unlisted.openOrders;
    assert Lists(s.accounts, account, mid, id);
    DropOrder(s.accounts, account, refunded, mid, id, m.book, book);
    ShrinkKeeps(m.terms.lots, m.book, book, s.prevSequence);
    RemoveKeepsShapes(s.accounts, Caps(s.markets), account, refunded, mid, id);
    hide Shrinks, BidsFit, BookOk, ShapesOk, Numbered, BookGet;
    MarketStep(s, after.accounts, mid, after.markets[mid], s.prevSequence);
    SameDepositsTotal(s.accounts, after.accounts);
  }

  lemma {:induction false} CancelEachKeepsSound(z: Sizes, s: State, mid: MarketId, orders: seq<Order>)
    requires Sound(z, s)
    requires CancelEach(z, s, mid, orders).Ok?
    ensures Sound(z, CancelEach(z, s, mid, orders).value)
  {
    hide CancelOrder, Sound;
    if orders != [] {
      var n := |orders| - 1;
      CancelEachKeepsSound(z, s, mid, orders[..n]);
      CancelKeepsSound(z, CancelEach(z, s, mid, orders[..n]).value, orders[n].owner, mid, orders[n].id);
    }
  }
}

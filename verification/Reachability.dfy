/** The whole-state theorems: every run from deployment stays sound and solvent, and reaches no bug. */
module Reachability {
  import opened Arithmetic
  import opened Exchange
  import opened Fees
  import opened Invariants
  import opened Ledger
  import opened MatchingEngine
  import opened OrderBook
  import opened OrderIndex
  import opened Orders
  import opened Outcomes
  import opened Settlement
  import opened Solvency
  import opened StoredAccount
  import opened StoredMarket
  import opened Sums
  import opened Types

  // ---------- Cancelling all orders of an account ----------

  lemma {:induction false} TakeOrdersFacts(b: Book, ids: seq<OrderId>)
    requires BookOk(b)
    requires TakeOrders(b, ids).Ok?
    ensures var c := TakeOrders(b, ids).value.0;
      && BookOk(c) && Shrinks(b, c)
      && (forall id :: BookGet(c, id) == if id in ids then None else BookGet(b, id))
  {
    hide Lookup, TakeOrder, BookGet;
    if ids != [] {
      var n := |ids| - 1;
      TakeOrdersFacts(b, ids[..n]);
      TakeOrderFacts(TakeOrders(b, ids[..n]).value.0, ids[n]);
      assert ids == ids[..n] + [ids[n]];
      ShrinksChain(b, TakeOrders(b, ids[..n]).value.0, TakeOrders(b, ids).value.0);
    }
  }

  lemma ShrinksChain(b: Book, c: Book, d: Book)
    requires Shrinks(b, c) && Shrinks(c, d)
    ensures Shrinks(b, d)
  {
    hide Lookup;
  }

  lemma {:induction false} RefundsUnlist(t: Terms, mid: MarketId, owner: AccountId, a: VAccount, pending: seq<Pending>)
    requires mid !in a.openOrders
    requires ProcessRefunds(t, mid, owner, a, pending).Ok?
    ensures ProcessRefunds(t, mid, owner, a, pending).value.openOrders == a.openOrders
  {
    hide RefundOne;
    if pending != [] {
      var n := |pending| - 1;
      RefundsUnlist(t, mid, owner, a, pending[..n]);
      RefundOneEffect(t, mid, owner, ProcessRefunds(t, mid, owner, a, pending[..n]).value, pending[n], t.quoteToken);
    }
  }

  lemma DropAllOrders(accounts: Accounts, a: AccountId, after: VAccount, mid: MarketId, ids: seq<OrderId>, b: Book, c: Book)
    requires a in accounts
    requires IndexAgrees(accounts, mid, b)
    requires Enumerates(ids, ListedIds(accounts[a], mid))
    requires forall id :: BookGet(c, id) == if id in ids then None else BookGet(b, id)
    requires after.openOrders == accounts[a].openOrders - {mid}
    ensures IndexAgrees(accounts[a := after], mid, c)
    ensures SameElsewhere(accounts, accounts[a := after], mid)
  {
    hide BookGet;
    forall x, i
      ensures Lists(accounts[a := after], x, mid, i) <==> OwnerOf(c, i) == Some(x)
    {
      assert Lists(accounts, x, mid, i) <==> OwnerOf(b, i) == Some(x);
      assert Lists(accounts, a, mid, i) <==> OwnerOf(b, i) == Some(a);
      assert i in ids <==> Lists(accounts, a, mid, i);
    }
  }

  lemma DropAllKeepsShapes(accounts: Accounts, caps: map<MarketId, nat>, a: AccountId, after: VAccount, mid: MarketId)
    requires ShapesOk(accounts, caps) && a in accounts
    requires after.openOrders == accounts[a].openOrders - {mid}
    ensures ShapesOk(accounts[a := after], caps)
  {
    hide IndexShape;
    forall other | other in after.openOrders
      ensures other in caps && IndexShape(after, other, caps[other])
    {
      ShapeOfOne(accounts, caps, a, other);
      SameShapeAt(accounts[a], after, other, caps[other]);
    }
    ShapeUpdate(accounts, caps, a, after);
  }

  lemma CancelAllKeepsSound(z: Sizes, s: State, account: AccountId, mid: MarketId, ids: seq<OrderId>)
    requires Sound(z, s)
    requires CancelAll(z, s, account, mid, ids).Ok?
    ensures Sound(z, CancelAll(z, s, account, mid, ids).value)
  {
    hide Covered, ProcessRefunds, TakeOrders, Enumerates;
    var after := CancelAll(z, s, account, mid, ids).value;
    var m := s.markets[mid];
    var (book, pending) := TakeOrders(m.book, ids).value;
    var unlisted := RemoveAllOrderInfos(s.accounts[account], mid);
    var refunded := ProcessRefunds(m.terms, mid, account, unlisted, pending).value;
    assert MarketOk(s.accounts, mid, m, s.prevSequence);
    TakeOrdersFacts(m.book, ids);
    RefundsUnlist(m.terms, mid, account, unlisted, pending);
    RefundsEffect(m.terms, mid, account, unlisted, pending, m.terms.quoteToken);
    DropAllOrders(s.accounts, account, refunded, mid, ids, m.book, book);
    ShrinkKeeps(m.terms.lots, m.book, book, s.prevSequence);
    DropAllKeepsShapes(s.accounts, Caps(s.markets), account, refunded, mid);
    hide Shrinks, BidsFit, BookOk, ShapesOk, Numbered, BookGet, IndexAgrees, PendingValue;
    MarketStep(s, after.accounts, mid, after.markets[mid], s.prevSequence);
    SameDepositsTotal(s.accounts, after.accounts);
  }

  // ---------- Calls that leave books alone ----------

  /** Replacing an account by one with the same lists keeps every structural fact but the deposit total. */
  lemma AccountStep(z: Sizes, s: State, a: AccountId, after: VAccount)
    requires Sound(z, s)
    requires a in s.accounts && after.openOrders == s.accounts[a].openOrders
    requires Covered(z, after)
    ensures var accounts := s.accounts[a := after];
      && AllCovered(z, accounts) && ShapesOk(accounts, Caps(s.markets))
      && MarketsOk(accounts, s.markets, s.prevSequence)
      && TotalStorage(accounts) == s.storageHeld - s.accounts[a].storageBalance + after.storageBalance
  {
    hide Covered, MarketOk, IndexShape;
    SameListsUpdate(s.accounts, a, after);
    SameListsStep(s, s.accounts[a := after]);
    RemoveKeepsShapes(s.accounts, Caps(s.markets), a, after, MarketId(0), OrderId(0));
    TotalStorageUpdate(s.accounts, a, after);
  }

  lemma RegisterStep(z: Sizes, s: State, a: AccountId, after: VAccount)
    requires Sound(z, s)
    requires a !in s.accounts && after.openOrders == map[]
    requires Covered(z, after)
    ensures var accounts := s.accounts[a := after];
      && AllCovered(z, accounts) && ShapesOk(accounts, Caps(s.markets))
      && MarketsOk(accounts, s.markets, s.prevSequence)
      && TotalStorage(accounts) == s.storageHeld + after.storageBalance
  {
    hide Covered, MarketOk, IndexShape;
    assert SameLists(s.accounts, s.accounts[a := after]);
    SameListsStep(s, s.accounts[a := after]);
    TotalStorageUpdate(s.accounts, a, after);
  }

  lemma UnregisterKeepsSound(z: Sizes, s: State, caller: AccountId)
    requires Sound(z, s)
    requires StorageUnregister(s, caller).Ok?
    ensures Sound(z, StorageUnregister(s, caller).value)
  {
    hide Covered, MarketOk, IndexShape;
    assert SameLists(s.accounts, s.accounts - {caller});
    SameListsStep(s, s.accounts - {caller});
    TotalStorageRemove(s.accounts, caller);
  }

  lemma StorageDepositKeepsSound(z: Sizes, s: State, account: AccountId, only: bool, amount: nat)
    requires Sound(z, s)
    requires StorageDeposit(z, s, account, only, amount).Ok?
    ensures Sound(z, StorageDeposit(z, s, account, only, amount).value)
  {
    hide Covered, Locked, AllCovered, ShapesOk, MarketsOk, NoSharedIds, TotalStorage;
    var after := StorageDeposit(z, s, account, only, amount).value;
    if account !in s.accounts {
      RegisterStep(z, s, account, after.accounts[account]);
    } else if after != s {
      AccountStep(z, s, account, after.accounts[account]);
    }
  }

  lemma StorageWithdrawKeepsSound(z: Sizes, s: State, caller: AccountId, amount: Option<nat>)
    requires Sound(z, s)
    requires StorageWithdraw(z, s, caller, amount).Ok?
    ensures Sound(z, StorageWithdraw(z, s, caller, amount).value)
  {
    hide Covered, StorageAvailable, AllCovered, ShapesOk, MarketsOk, NoSharedIds, TotalStorage;
    var after := StorageWithdraw(z, s, caller, amount).value;
    if after.accounts != s.accounts {
      AccountStep(z, s, caller, after.accounts[caller]);
    }
  }

  lemma DepositKeepsSound(z: Sizes, s: State, account: AccountId, t: Token, amount: nat)
    requires Sound(z, s)
    requires DepositTokens(z, s, account, t, amount).Ok?
    ensures Sound(z, DepositTokens(z, s, account, t, amount).value)
  {
    hide Covered, InternalDeposit, AllCovered, ShapesOk, MarketsOk, NoSharedIds, TotalStorage;
    InternalDepositEffect(z, s.accounts, account, t, amount, t);
    AccountStep(z, s, account, InternalDeposit(z, s.accounts, account, t, amount).value[account]);
  }

  lemma WithdrawKeepsSound(z: Sizes, s: State, caller: AccountId, t: Token, amount: nat)
    requires Sound(z, s)
    requires WithdrawTokens(z, s, caller, t, amount).Ok?
    ensures Sound(z, WithdrawTokens(z, s, caller, t, amount).value)
  {
    hide Covered, AllCovered, ShapesOk, MarketsOk, NoSharedIds, TotalStorage;
    WithdrawEffect(s.accounts[caller], t, amount, t);
    AccountStep(z, s, caller, Withdraw(s.accounts[caller], t, amount).value);
  }

  lemma CallbackKeepsSound(z: Sizes, s: State, i: nat)
    requires Sound(z, s)
    requires WithdrawCallback(z, s, i).Ok?
    ensures Sound(z, WithdrawCallback(z, s, i).value)
  {
    hide Covered, InternalDeposit, AllCovered, ShapesOk, MarketsOk, NoSharedIds, TotalStorage;
    var send := s.sends[i];
    var target := CreditTarget(s, send.receiver);
    if send.status.Bounced? && InternalDeposit(z, s.accounts, target, send.token, send.amount).Ok? {
      InternalDepositEffect(z, s.accounts, target, send.token, send.amount, send.token);
      AccountStep(z, s, target, InternalDeposit(z, s.accounts, target, send.token, send.amount).value[target]);
    }
  }

  lemma EmptyMarketOk(accounts: Accounts, caps: map<MarketId, nat>, mid: MarketId, m: VMarket, n: nat)
    requires ShapesOk(accounts, caps) && mid !in caps
    requires m.book == EMPTY_BOOK
    ensures MarketOk(accounts, mid, m, n)
    ensures forall id :: BookGet(m.book, id).None?
  {
    hide IndexShape;
    forall a, id
      ensures Lists(accounts, a, mid, id) <==> OwnerOf(EMPTY_BOOK, id) == Some(a)
    {
      if Lists(accounts, a, mid, id) {
        ShapeOfOne(accounts, caps, a, mid);
      }
    }
  }

  lemma NewMarketStep(z: Sizes, s: State, mid: MarketId, m: VMarket)
    requires Sound(z, s)
    requires mid !in s.markets && m.book == EMPTY_BOOK
    ensures Sound(z, s.(markets := s.markets[mid := m]))
  {
    hide Covered, IndexShape, MarketOk, BookGet, TotalStorage;
    EmptyMarketOk(s.accounts, Caps(s.markets), mid, m, s.prevSequence);
    var markets := s.markets[mid := m];
    forall a, x | a in s.accounts && x in s.accounts[a].openOrders
      ensures x in Caps(markets) && IndexShape(s.accounts[a], x, Caps(markets)[x])
    {
      ShapeOfOne(s.accounts, Caps(s.markets), a, x);
    }
  }

  lemma CreateMarketKeepsSound(z: Sizes, s: State, mid: MarketId, t: MarketTerms, decimals: nat)
    requires Sound(z, s)
    requires CreateMarket(s, mid, t, decimals).Ok?
    ensures Sound(z, CreateMarket(s, mid, t, decimals).value)
  {
    hide Sound, Pow10;
    NewMarketStep(z, s, mid, VMarket(t, Trading, EMPTY_BOOK, 0));
  }

  lemma SetMarketStateKeepsSound(z: Sizes, s: State, caller: AccountId, mid: MarketId, state: MarketState)
    requires Sound(z, s)
    requires SetMarketState(s, caller, mid, state).Ok?
    ensures Sound(z, SetMarketState(s, caller, mid, state).value)
  {
    hide AllCovered, ShapesOk, BookOk, IndexAgrees, BidsFit, Numbered, BookGet, TotalStorage;
    var m := s.markets[mid].(state := state);
    assert MarketOk(s.accounts, mid, s.markets[mid], s.prevSequence);
    MarketStep(s, s.accounts, mid, m, s.prevSequence);
  }

  // ---------- Every call ----------

  /** Every call keeps the books and lists in step, accounts covered and capped, ids unique, deposits backed. */
  lemma ApplyKeepsSound(z: Sizes, s: State, a: Action)
    requires Sound(z, s)
    ensures Sound(z, Next(z, s, a))
  {
    hide NewOrder, ExecuteSwaps, CancelOrder, CancelAll, CancelEach, DepositTokens, WithdrawTokens, WithdrawCallback, StorageDeposit,
         StorageWithdraw, StorageUnregister, CreateMarket, SetMarketState, AllCovered, ShapesOk, MarketsOk, NoSharedIds, TotalStorage, Caps, Snapshot;
    if Apply(z, s, a).Ok? {
      match a
      case ActNewOrder(caller, mid, p, placed, now) => OrderKeepsSound(z, s, caller, mid, p, placed, now);
      case ActSwap(signer, sender, t, amount, hops) => SwapsKeepSound(z, s, signer, sender, t, amount, hops);
      case ActCancel(caller, mid, id) => CancelKeepsSound(z, s, caller, mid, id);
      case ActCancelAll(caller, mid, ids) => CancelAllKeepsSound(z, s, caller, mid, ids);
      case ActClear(caller, mid, limit) => CancelEachKeepsSound(z, s, mid, Snapshot(s.markets[mid].book, limit));
      case ActDeposit(account, t, amount) => DepositKeepsSound(z, s, account, t, amount);
      case ActWithdraw(caller, t, amount) => WithdrawKeepsSound(z, s, caller, t, amount);
      case ActTransfer(i, success) =>
      case ActCallback(i) => CallbackKeepsSound(z, s, i);
      case ActStorageDeposit(account, only, amount) => StorageDepositKeepsSound(z, s, account, only, amount);
      case ActStorageWithdraw(caller, amount) => StorageWithdrawKeepsSound(z, s, caller, amount);
      case ActUnregister(caller) => UnregisterKeepsSound(z, s, caller);
      case ActCreateMarket(mid, t, decimals) => CreateMarketKeepsSound(z, s, mid, t, decimals);
      case ActSetMode(caller, mode) =>
      case ActSetMarketState(caller, mid, state) => SetMarketStateKeepsSound(z, s, caller, mid, state);
    }
  }

  // ---------- What every call does to the gap ----------

  /** What an order leaves with the contract. */
  ghost function PlacedSurplus(z: Sizes, s: State, caller: AccountId, mid: MarketId, p: NewOrderParams, placed: Option<Placement>, t: Token): int {
    if !ValidOrder(p) || mid !in s.markets || placed.None? then 0
    else
      var m := s.markets[mid];
      match Prepare(m.terms, m.book, p, s.prevSequence + 1)
      case Err(_) => 0
      case Ok(o) =>
        match SettleTrade(z, m.terms, mid, o.side, s.accounts, placed.value.fills, p.referrer, m.feesAccrued)
        case Err(_) => 0
        case Ok(tr) => OrderSurplus(m.terms, m.book, caller, p, o, placed.value, tr, t)
  }

  /**
   * Every way in which a call moves the gap of a token. Orders and swaps leave dust and dropped amounts, a
   * callback may leave its amount, and three things move NEAR by one yocto: a call that keeps what its
   * caller attached, a transfer that returns what was attached to it, and a swap that attaches it.
   */
  ghost function Surplus(z: Sizes, s: State, a: Action, t: Token): int {
    if Apply(z, s, a).Err? then 0
    else
      match a
      case ActNewOrder(caller, mid, p, placed, _) => PlacedSurplus(z, s, caller, mid, p, placed, t)
      case ActSwap(signer, _, token, amount, hops) => SwapSurplus(z, s, signer, token, amount, hops, t)
      case ActWithdraw(_, token, _) => if t == NativeNear && token == NativeNear then 1 else 0
      case ActTransfer(i, success) => if t == NativeNear && !success && i < |s.sends| then Attached(s.sends[i].token) else 0
      case ActCallback(i) => Stranded(z, s, i, t)
      case ActStorageWithdraw(_, _) => if t == NativeNear then 1 else 0
      case ActUnregister(_) => if t == NativeNear then 1 else 0
      case _ => 0
  }

  lemma OrderMovesGap(z: Sizes, s: State, caller: AccountId, mid: MarketId, p: NewOrderParams, placed: Option<Placement>, now: nat, t: Token)
    requires NewOrder(z, s, caller, mid, p, placed, now).Ok?
    ensures Gap(NewOrder(z, s, caller, mid, p, placed, now).value, t)
         == Gap(s, t) + PlacedSurplus(z, s, caller, mid, p, placed, t)
    ensures PlacedSurplus(z, s, caller, mid, p, placed, t) >= 0
    ensures mid in s.markets
    ensures OrderIsExact(s.markets[mid].terms.lots, caller, p) ==> PlacedSurplus(z, s, caller, mid, p, placed, t) == 0
  {
    hide NewOrder, Gap, OrderSurplus, SettleTrade, SettleTaker, Prepare, EngineOk, NewBook, Covered;
    var after := NewOrder(z, s, caller, mid, p, placed, now).value;
    var o, tr, taker := OrderUnfolds(z, s, caller, mid, p, placed, now);
    OrderConserves(z, s, caller, mid, p, placed.value, now, o, tr, taker, after, t);
    OrderSurplusSign(s.markets[mid].terms, s.markets[mid].book, caller, p, o, placed.value, tr, t);
  }

  /** The named surplus is the whole change of the gap: of every call, from any state, for every token. */
  lemma StepMovesGap(z: Sizes, s: State, a: Action, t: Token)
    ensures Gap(Next(z, s, a), t) == Gap(s, t) + Surplus(z, s, a, t)
  {
    hide NewOrder, ExecuteSwaps, CancelOrder, CancelAll, CancelEach, DepositTokens, WithdrawTokens, WithdrawCallback, StorageDeposit,
         StorageWithdraw, StorageUnregister, CreateMarket, TransferSettles, SetMarketState, Gap, Snapshot, PlacedSurplus, SwapSurplus, Stranded;
    if Apply(z, s, a).Ok? {
      match a
      case ActNewOrder(caller, mid, p, placed, now) => OrderMovesGap(z, s, caller, mid, p, placed, now, t);
      case ActSwap(signer, sender, token, amount, hops) => SwapsConserve(z, s, signer, sender, token, amount, hops, t);
      case ActCancel(caller, mid, id) => CancelConserves(z, s, caller, mid, id, t);
      case ActCancelAll(caller, mid, ids) => CancelAllConserves(z, s, caller, mid, ids, t);
      case ActClear(caller, mid, limit) => CancelEachConserves(z, s, mid, Snapshot(s.markets[mid].book, limit), t);
      case ActDeposit(account, token, amount) => DepositConserves(z, s, account, token, amount, t);
      case ActWithdraw(caller, token, amount) => WithdrawConserves(z, s, caller, token, amount, t);
      case ActTransfer(i, success) => TransferConserves(s, i, success, t);
      case ActCallback(i) => CallbackConserves(z, s, i, t);
      case ActStorageDeposit(account, only, amount) => StorageDepositConserves(z, s, account, only, amount, t);
      case ActStorageWithdraw(caller, amount) => StorageWithdrawConserves(z, s, caller, amount, t);
      case ActUnregister(caller) => UnregisterConserves(s, caller, t);
      case ActCreateMarket(mid, terms, decimals) => CreateMarketConserves(s, mid, terms, decimals, t);
      case ActSetMode(caller, mode) => ModeGap(s, mode, t);
      case ActSetMarketState(caller, mid, state) => SetMarketStateConserves(s, caller, mid, state, t);
    }
  }

  lemma ModeGap(s: State, mode: ContractState, t: Token)
    ensures Gap(s.(mode := mode), t) == Gap(s, t)
  {
  }

  /** A completed swap that pays out a token other than NEAR. */
  ghost predicate PaysOutToken(z: Sizes, s: State, a: Action) {
    && a.ActSwap? && Apply(z, s, a).Ok?
    && var after := Next(z, s, a);
       |after.sends| > |s.sends| && after.sends[|s.sends|].token != NativeNear
  }

  lemma SwapPayout(z: Sizes, s: State, signer: AccountId, sender: AccountId, token: Token, amount: nat, hops: seq<Hop>)
    requires ExecuteSwaps(z, s, signer, sender, token, amount, hops).Ok?
    ensures var a := ActSwap(signer, sender, token, amount, hops);
      var chain := SwapChain(z, AddHeld(s, token, amount), signer, token, amount, hops);
      && chain.Ok?
      && (PaysOutToken(z, s, a) <==> chain.value.amount > 0 && chain.value.token != NativeNear)
      && (forall t :: Surplus(z, s, a, t) == ChainSurplus(z, AddHeld(s, token, amount), signer, token, amount, hops, t)
           - (if t == NativeNear && PaysOutToken(z, s, a) then 1 else 0))
      && (forall t :: ChainSurplus(z, AddHeld(s, token, amount), signer, token, amount, hops, t) >= 0)
  {
    hide SwapChain, ChainSurplus;
    var start := AddHeld(s, token, amount);
    ChainKeepsSends(z, start, signer, token, amount, hops);
    forall t
      ensures ChainSurplus(z, start, signer, token, amount, hops, t) >= 0
    {
      ChainConserves(z, start, signer, token, amount, hops, t);
    }
  }

  lemma SurplusSign(z: Sizes, s: State, a: Action, t: Token)
    ensures Surplus(z, s, a, t) >= (if t == NativeNear && PaysOutToken(z, s, a) then -1 else 0)
    ensures Surplus(z, s, a, t) < 0 <==> t == NativeNear && PaysOutToken(z, s, a) && ChainGain(z, s, a, t) == 0
  {
    hide NewOrder, ExecuteSwaps, SwapChain, SwapSurplus, ChainSurplus, CancelOrder, CancelAll, CancelEach, DepositTokens, WithdrawTokens,
         WithdrawCallback, StorageDeposit, StorageWithdraw, StorageUnregister, CreateMarket, TransferSettles, SetMarketState, Snapshot,
         PlacedSurplus, Next;
    if Apply(z, s, a).Ok? {
      match a
      case ActNewOrder(caller, mid, p, placed, now) => OrderMovesGap(z, s, caller, mid, p, placed, now, t);
      case ActSwap(signer, sender, token, amount, hops) => SwapPayout(z, s, signer, sender, token, amount, hops);
      case _ =>
    }
  }

  /** What a swap's hops leave in a token. */
  ghost function ChainGain(z: Sizes, s: State, a: Action, t: Token): int {
    match a
    case ActSwap(signer, _, token, amount, hops) => ChainSurplus(z, AddHeld(s, token, amount), signer, token, amount, hops, t)
    case _ => 0
  }

  /** No call, from any state whatever, shrinks the gap of a token other than NEAR. */
  lemma GapNeverShrinks(z: Sizes, s: State, a: Action, t: Token)
    requires t != NativeNear
    ensures Gap(Next(z, s, a), t) >= Gap(s, t)
  {
    hide Gap, Next, Surplus;
    StepMovesGap(z, s, a, t);
    SurplusSign(z, s, a, t);
  }

  /**
   * The gap of NEAR shrinks in exactly one way, and then by one yocto: a swap pays out another token, the
   * contract attaches a yoctoNEAR of its own to the transfer, and no hop left any NEAR behind.
   */
  lemma NearGapShrinksExactly(z: Sizes, s: State, a: Action)
    ensures Gap(Next(z, s, a), NativeNear) < Gap(s, NativeNear)
       <==> PaysOutToken(z, s, a) && ChainGain(z, s, a, NativeNear) == 0
    ensures Gap(Next(z, s, a), NativeNear) >= Gap(s, NativeNear) - (if PaysOutToken(z, s, a) then 1 else 0)
  {
    hide Gap, Next, Surplus, PaysOutToken, ChainGain;
    StepMovesGap(z, s, a, NativeNear);
    SurplusSign(z, s, a, NativeNear);
  }

  lemma DeployedIsSound(z: Sizes, owner: AccountId, t: Token)
    ensures Sound(z, Deployed(owner))
    ensures Gap(Deployed(owner), t) == 0
  {
    SumZero(BalancesOf(map[], t));
    SumZero(ClaimsOf(map[], t));
    SumZero(StorageOf(map[]));
  }

  lemma {:induction false} RunIsSound(z: Sizes, owner: AccountId, actions: seq<Action>)
    ensures Sound(z, Run(z, Deployed(owner), actions))
  {
    hide Sound, Next;
    if actions == [] {
      DeployedIsSound(z, owner, NativeNear);
    } else {
      var n := |actions| - 1;
      RunIsSound(z, owner, actions[..n]);
      ApplyKeepsSound(z, Run(z, Deployed(owner), actions[..n]), actions[n]);
    }
  }

  ghost function RunSurplus(z: Sizes, s: State, actions: seq<Action>, t: Token): int {
    if actions == [] then 0
    else
      RunSurplus(z, s, actions[..|actions| - 1], t)
      + Surplus(z, Run(z, s, actions[..|actions| - 1]), actions[|actions| - 1], t)
  }

  /** How many swaps of a run pay out a token other than NEAR. */
  ghost function Payouts(z: Sizes, s: State, actions: seq<Action>): nat {
    if actions == [] then 0
    else
      Payouts(z, s, actions[..|actions| - 1])
      + (if PaysOutToken(z, Run(z, s, actions[..|actions| - 1]), actions[|actions| - 1]) then 1 else 0)
  }

  /** Along any run, from any state, the gap moves by the sum of the named amounts. */
  lemma {:induction false} RunMovesGap(z: Sizes, s: State, actions: seq<Action>, t: Token)
    ensures Gap(Run(z, s, actions), t) == Gap(s, t) + RunSurplus(z, s, actions, t)
  {
    hide Gap, Next, Surplus;
    if actions != [] {
      var n := |actions| - 1;
      RunMovesGap(z, s, actions[..n], t);
      StepMovesGap(z, Run(z, s, actions[..n]), actions[n], t);
    }
  }

  lemma {:induction false} RunSurplusSign(z: Sizes, s: State, actions: seq<Action>, t: Token)
    ensures RunSurplus(z, s, actions, t) >= (if t == NativeNear then 0 - Payouts(z, s, actions) else 0)
  {
    hide Next, Surplus, PaysOutToken;
    if actions != [] {
      var n := |actions| - 1;
      RunSurplusSign(z, s, actions[..n], t);
      SurplusSign(z, Run(z, s, actions[..n]), actions[n], t);
    }
  }

  /** Along any run the gap of every token but NEAR only grows. */
  lemma GapGrowsAlongRuns(z: Sizes, s: State, actions: seq<Action>, t: Token)
    requires t != NativeNear
    ensures Gap(Run(z, s, actions), t) >= Gap(s, t)
  {
    hide Gap, Run, RunSurplus;
    RunMovesGap(z, s, actions, t);
    RunSurplusSign(z, s, actions, t);
  }

  /**
   * Solvency over every run: after any calls in any order, the balances, the refund values of resting
   * orders, the accrued fees and the transfers under way of a token never exceed what is held of it. NEAR
   * may fall short by one yocto for each swap that paid out another token.
   */
  lemma SolventOverRuns(z: Sizes, owner: AccountId, actions: seq<Action>, t: Token)
    ensures var s := Run(z, Deployed(owner), actions);
      Liabilities(s, t) <= Held(s, t) + (if t == NativeNear then Payouts(z, Deployed(owner), actions) else 0)
  {
    hide Run, RunSurplus;
    DeployedIsSound(z, owner, t);
    RunMovesGap(z, Deployed(owner), actions, t);
    RunSurplusSign(z, Deployed(owner), actions, t);
    hide Liabilities, Held;
  }

  /** What is owed exceeds what is held exactly when the yoctos attached to payouts outnumber all that was left. */
  lemma SolventExactly(z: Sizes, owner: AccountId, actions: seq<Action>, t: Token)
    ensures var s := Run(z, Deployed(owner), actions);
      Liabilities(s, t) <= Held(s, t) <==> RunSurplus(z, Deployed(owner), actions, t) >= 0
  {
    hide Run, RunSurplus;
    DeployedIsSound(z, owner, t);
    RunMovesGap(z, Deployed(owner), actions, t);
    hide Liabilities, Held;
  }

  // ---------- Exact conservation ----------

  /** Lots divide evenly, a bid's price is a whole number of lots, and the taker is not its own referrer. */
  predicate OrderIsExact(lots: Lots, caller: AccountId, p: NewOrderParams)
    requires lots.quote > 0
  {
    && EvenLots(lots)
    && (p.side == Buy && p.limitPrice.Some? ==> ToLots(p.limitPrice.value, lots.quote) * lots.quote == p.limitPrice.value)
    && p.referrer != Some(caller)
  }

  /** The calls under which nothing is rounded away, dropped or kept in the given token. */
  ghost predicate Exact(z: Sizes, s: State, a: Action, t: Token) {
    match a
    case ActNewOrder(caller, mid, p, _, _) => mid in s.markets ==> OrderIsExact(s.markets[mid].terms.lots, caller, p)
    case ActSwap(signer, _, token, amount, hops) =>
      ChainIsTight(z, AddHeld(s, token, amount), signer, token, amount, hops) && (t == NativeNear ==> !PaysOutToken(z, s, a))
    case ActWithdraw(_, token, _) => t == NativeNear ==> token != NativeNear
    case ActTransfer(i, success) => t == NativeNear && i < |s.sends| && s.sends[i].token != NativeNear ==> success
    case ActCallback(i) => Stranded(z, s, i, t) == 0
    case ActStorageWithdraw(_, _) => t != NativeNear
    case ActUnregister(_) => t != NativeNear
    case _ => true
  }

  lemma ExactStep(z: Sizes, s: State, a: Action, t: Token)
    requires Exact(z, s, a, t)
    ensures Gap(Next(z, s, a), t) == Gap(s, t)
  {
    hide NewOrder, ExecuteSwaps, SwapChain, SwapSurplus, ChainSurplus, CancelOrder, CancelAll, CancelEach, DepositTokens, WithdrawTokens,
         WithdrawCallback, StorageDeposit, StorageWithdraw, StorageUnregister, CreateMarket, TransferSettles, SetMarketState, Snapshot,
         PlacedSurplus, Next, Stranded, OrderIsExact, ChainIsTight, PaysOutToken, Gap;
    StepMovesGap(z, s, a, t);
    if Apply(z, s, a).Ok? {
      match a
      case ActNewOrder(caller, mid, p, placed, now) => OrderMovesGap(z, s, caller, mid, p, placed, now, t);
      case ActSwap(signer, sender, token, amount, hops) =>
        SwapPayout(z, s, signer, sender, token, amount, hops);
        TightChainGainsNothing(z, AddHeld(s, token, amount), signer, token, amount, hops, t);
      case _ =>
    }
  }

  ghost predicate AllExact(z: Sizes, s: State, actions: seq<Action>, t: Token) {
    actions == []
    || (AllExact(z, s, actions[..|actions| - 1], t) && Exact(z, Run(z, s, actions[..|actions| - 1]), actions[|actions| - 1], t))
  }

  /** Exact conservation: over such calls, what is held minus what is owed never changes at all. */
  lemma {:induction false} ExactOverRuns(z: Sizes, s: State, actions: seq<Action>, t: Token)
    requires AllExact(z, s, actions, t)
    ensures Gap(Run(z, s, actions), t) == Gap(s, t)
  {
    hide Gap, Next, Exact;
    if actions != [] {
      var n := |actions| - 1;
      ExactOverRuns(z, s, actions[..n], t);
      ExactStep(z, Run(z, s, actions[..n]), actions[n], t);
    }
  }
}

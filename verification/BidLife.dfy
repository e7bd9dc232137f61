/** The life of one bid: from the lock at its posting, through every call that follows, to the end of any run. */
module BidLife {
  import opened Arithmetic
  import opened CancelProgress
  import opened Exchange
  import opened Invariants
  import opened Ledger
  import opened MatchingEngine
  import opened NoBugs
  import opened OrderBook
  import opened OrderIndex
  import opened Orders
  import opened Outcomes
  import opened Protocols
  import opened Reachability
  import opened Settlement
  import opened Solvency
  import opened StoredAccount
  import opened StoredMarket
  import opened Types

  // ---------- One bid, before and after ----------

  /** What cancelling a bid would give back; nothing once it is gone. */
  function Worth(lots: Lots, o: Option<Order>): nat
    requires lots.denomination > 0
  {
    match o
    case Some(x) => QuoteValue(lots, x.openQty, x.price)
    case None => 0
  }

  /** A bid keeps its price and owner, and gives up what is taken from it, short by at most one unit a fill. */
  ghost predicate BidMoves(lots: Lots, x: Option<Order>, y: Option<Order>, taken: nat, fills: nat)
    requires lots.denomination > 0
  {
    && (y.Some? ==> x.Some? && y.value.price == x.value.price && y.value.owner == x.value.owner && y.value.openQty <= x.value.openQty)
    && var dust := Worth(lots, x) - taken - Worth(lots, y);
       && 0 <= dust <= fills
       && (EvenLots(lots) ==> dust == 0)
  }

  lemma BidMovesChain(lots: Lots, x: Option<Order>, y: Option<Order>, w: Option<Order>, taken: nat, fills: nat, taken': nat, fills': nat)
    requires lots.denomination > 0
    requires BidMoves(lots, x, y, taken, fills) && BidMoves(lots, y, w, taken', fills')
    ensures BidMoves(lots, x, w, taken + taken', fills + fills')
  {
    hide QuoteValue;
  }

  // ---------- Matching ----------

  /** The quote that a list of fills pays to the owner of one order, and in how many fills. */
  function PaidTo(fills: seq<Fill>, id: OrderId): nat {
    if fills == [] then 0 else PaidTo(Init(fills), id) + (if Last(fills).makerOrder == id then Last(fills).quotePaid else 0)
  }

  function FillsOf(fills: seq<Fill>, id: OrderId): nat {
    if fills == [] then 0 else FillsOf(Init(fills), id) + (if Last(fills).makerOrder == id then 1 else 0)
  }

  lemma BidThroughFill(lots: Lots, taker: AccountId, limit: Option<nat>, os: seq<Order>, f: Fill, id: OrderId)
    requires lots.denomination > 0
    requires Distinct(os)
    requires FillOk(lots, taker, Sell, limit, os, f)
    ensures BidMoves(lots, Lookup(os, id), Lookup(Reduce(os, f.makerOrder, f.qty), id),
                     if f.makerOrder == id then f.quotePaid else 0, if f.makerOrder == id then 1 else 0)
  {
    hide QuoteValue;
    ReduceLookup(os, f.makerOrder, f.qty, id);
    if f.makerOrder == id {
      var o := Lookup(os, id).value;
      BidSplit(lots, o.price, f.qty, o.openQty - f.qty);
      ValueOfNothing(lots, Buy, o.price);
    }
  }

  lemma {:induction false} BidThroughFills(lots: Lots, taker: AccountId, limit: Option<nat>, os: seq<Order>, fills: seq<Fill>, id: OrderId)
    requires lots.denomination > 0
    requires Distinct(os)
    requires FillsOk(lots, taker, Sell, limit, os, fills)
    ensures BidMoves(lots, Lookup(os, id), Lookup(AfterFills(os, fills), id), PaidTo(fills, id), FillsOf(fills, id))
  {
    hide QuoteValue, BidMoves, FillOk;
    if fills != [] {
      var earlier := AfterFills(os, Init(fills));
      BidThroughFills(lots, taker, limit, os, Init(fills), id);
      FillsKeepDistinct(lots, taker, Sell, limit, os, Init(fills));
      BidThroughFill(lots, taker, limit, earlier, Last(fills), id);
      BidMovesChain(lots, Lookup(os, id), Lookup(earlier, id), Lookup(AfterFills(os, fills), id), PaidTo(Init(fills), id),
                    FillsOf(Init(fills), id), if Last(fills).makerOrder == id then Last(fills).quotePaid else 0,
                    if Last(fills).makerOrder == id then 1 else 0);
    } else {
      StillBid(lots, Lookup(os, id));
    }
  }

  lemma StillBid(lots: Lots, x: Option<Order>)
    requires lots.denomination > 0
    ensures BidMoves(lots, x, x, 0, 0)
  {
    hide QuoteValue;
  }

  /** Quote paid to a bid, and the number of its fills, when an order of this side is matched. */
  function PaidBy(side: Side, fills: seq<Fill>, id: OrderId): nat {
    if side == Sell then PaidTo(fills, id) else 0
  }

  function FilledBy(side: Side, fills: seq<Fill>, id: OrderId): nat {
    if side == Sell then FillsOf(fills, id) else 0
  }

  /** Matching an order and posting what remains of it, under a later id. */
  lemma BidThroughPlacement(t: Terms, b: Book, taker: AccountId, o: EngineOrder, pl: Placement, n: nat, id: OrderId)
    requires EngineOk(t.lots, b, taker, o, pl)
    requires BookOk(b) && Numbered(b, n) && o.sequence > n && id.sequence <= n
    ensures BidMoves(t.lots, Lookup(b.bids, id), Lookup(NewBook(b, taker, o, pl).bids, id),
                     PaidBy(o.side, pl.fills, id), FilledBy(o.side, pl.fills, id))
  {
    hide QuoteValue, BidMoves;
    if o.side == Sell {
      BidThroughFills(t.lots, taker, o.limitPrice, b.bids, pl.fills, id);
    } else {
      StillBid(t.lots, Lookup(b.bids, id));
      if pl.openQty > 0 {
        assert Lookup(b.bids, pl.id).None? by {
          assert BookGet(b, pl.id).None?;
        }
        hide FillsOk, AfterFills, Lookup;
        InsertLookup(b.bids, pl.rank, PostedOrder(taker, o, pl), id);
      }
    }
  }

  // ---------- What a call takes from a bid ----------

  function BidAt(s: State, mid: MarketId, id: OrderId): Option<Order> {
    if mid in s.markets then Lookup(s.markets[mid].book.bids, id) else None
  }

  function PaidByHops(hops: seq<Hop>, mid: MarketId, id: OrderId): nat {
    if hops == [] then 0
    else
      var h := hops[|hops| - 1];
      PaidByHops(hops[..|hops| - 1], mid, id) + (if h.market == mid && h.placed.Some? then PaidBy(h.side, h.placed.value.fills, id) else 0)
  }

  function FilledByHops(hops: seq<Hop>, mid: MarketId, id: OrderId): nat {
    if hops == [] then 0
    else
      var h := hops[|hops| - 1];
      FilledByHops(hops[..|hops| - 1], mid, id) + (if h.market == mid && h.placed.Some? then FilledBy(h.side, h.placed.value.fills, id) else 0)
  }

  /** The quote that a call pays to the owner of a bid. */
  ghost function Paid(z: Sizes, s: State, a: Action, mid: MarketId, id: OrderId): nat {
    if Apply(z, s, a).Err? then 0
    else
      match a
      case ActNewOrder(_, market, p, placed, _) => if market == mid && placed.Some? then PaidBy(p.side, placed.value.fills, id) else 0
      case ActSwap(_, _, _, _, hops) => PaidByHops(hops, mid, id)
      case _ => 0
  }

  ghost function Filled(z: Sizes, s: State, a: Action, mid: MarketId, id: OrderId): nat {
    if Apply(z, s, a).Err? then 0
    else
      match a
      case ActNewOrder(_, market, p, placed, _) => if market == mid && placed.Some? then FilledBy(p.side, placed.value.fills, id) else 0
      case ActSwap(_, _, _, _, hops) => FilledByHops(hops, mid, id)
      case _ => 0
  }

  /** The refund of a bid that a call takes off the book without matching it. */
  ghost function Refunded(z: Sizes, s: State, a: Action, mid: MarketId, id: OrderId): nat {
    if mid !in s.markets || a.ActNewOrder? || a.ActSwap? || BidAt(Next(z, s, a), mid, id).Some? then 0
    else Worth(s.markets[mid].terms.lots, BidAt(s, mid, id))
  }

  /** The market stays, on the same terms, and so does the bid but for what is taken. */
  ghost predicate StateMoves(s: State, after: State, mid: MarketId, id: OrderId, taken: nat, fills: nat) {
    && mid in s.markets && mid in after.markets
    && after.markets[mid].terms == s.markets[mid].terms
    && after.prevSequence >= s.prevSequence
    && BidMoves(s.markets[mid].terms.lots, BidAt(s, mid, id), BidAt(after, mid, id), taken, fills)
  }

  lemma StateMovesChain(s: State, x: State, y: State, mid: MarketId, id: OrderId, taken: nat, fills: nat, taken': nat, fills': nat)
    requires StateMoves(s, x, mid, id, taken, fills) && StateMoves(x, y, mid, id, taken', fills')
    ensures StateMoves(s, y, mid, id, taken + taken', fills + fills')
  {
    hide BidMoves, BidAt;
    BidMovesChain(s.markets[mid].terms.lots, BidAt(s, mid, id), BidAt(x, mid, id), BidAt(y, mid, id), taken, fills, taken', fills');
  }

  /** A bid known to be numbered, in a sound state. */
  ghost predicate Known(z: Sizes, s: State, mid: MarketId, id: OrderId) {
    Sound(z, s) && mid in s.markets && id.sequence <= s.prevSequence
  }

  lemma OrderTakes(z: Sizes, s: State, caller: AccountId, market: MarketId, p: NewOrderParams, placed: Option<Placement>, now: nat,
                   mid: MarketId, id: OrderId)
    requires Known(z, s, mid, id)
    requires NewOrder(z, s, caller, market, p, placed, now).Ok?
    ensures placed.Some?
    ensures StateMoves(s, NewOrder(z, s, caller, market, p, placed, now).value, mid, id,
                       if market == mid then PaidBy(p.side, placed.value.fills, id) else 0,
                       if market == mid then FilledBy(p.side, placed.value.fills, id) else 0)
  {
    hide NewOrder, Sound, Prepare, SettleTrade, SettleTaker, EngineOk, NewBook, Covered, BidMoves, Lookup, BookOk, Numbered, FillsOk;
    var o, tr, taker := OrderUnfolds(z, s, caller, market, p, placed, now);
    MarketOf(z, s, market);
    StillBid(s.markets[mid].terms.lots, BidAt(s, mid, id));
    if market == mid {
      BidThroughPlacement(s.markets[mid].terms, s.markets[mid].book, caller, o, placed.value, s.prevSequence, id);
    }
  }

  lemma HopTakes(z: Sizes, s: State, signer: AccountId, token: Token, amount: nat, h: Hop, mid: MarketId, id: OrderId)
    requires Known(z, s, mid, id)
    requires SwapHop(z, s, signer, token, amount, h).Ok?
    ensures h.placed.Some?
    ensures StateMoves(s, SwapHop(z, s, signer, token, amount, h).value.state, mid, id,
                       if h.market == mid then PaidBy(h.side, h.placed.value.fills, id) else 0,
                       if h.market == mid then FilledBy(h.side, h.placed.value.fills, id) else 0)
  {
    hide SwapHop, Sound, SwapOrder, SettleTrade, EngineOk, NewBook, BidMoves, Lookup, BookOk, Numbered;
    var o, tr := HopUnfolds(z, s, signer, token, amount, h);
    SwapOrderShape(s.markets[h.market].terms, h.side, amount, s.prevSequence + 1);
    MarketOf(z, s, h.market);
    StillBid(s.markets[mid].terms.lots, BidAt(s, mid, id));
    if h.market == mid {
      BidThroughPlacement(s.markets[mid].terms, s.markets[mid].book, signer, o, h.placed.value, s.prevSequence, id);
    }
  }

  lemma {:induction false} ChainTakes(z: Sizes, s: State, signer: AccountId, token: Token, amount: nat, hops: seq<Hop>, mid: MarketId, id: OrderId)
    requires Known(z, s, mid, id)
    requires SwapChain(z, s, signer, token, amount, hops).Ok?
    ensures StateMoves(s, SwapChain(z, s, signer, token, amount, hops).value.state, mid, id,
                       PaidByHops(hops, mid, id), FilledByHops(hops, mid, id))
  {
    hide SwapHop, Sound, BidMoves, Lookup;
    if hops == [] {
      StillBid(s.markets[mid].terms.lots, BidAt(s, mid, id));
    } else {
      var n := |hops| - 1;
      var c := SwapChain(z, s, signer, token, amount, hops[..n]).value;
      var d := SwapHop(z, c.state, signer, c.token, c.amount, hops[n]).value;
      ChainKeepsSound(z, s, signer, token, amount, hops[..n]);
      ChainTakes(z, s, signer, token, amount, hops[..n], mid, id);
      HopTakes(z, c.state, signer, c.token, c.amount, hops[n], mid, id);
      hide StateMoves;
      StateMovesChain(s, c.state, d.state, mid, id, PaidByHops(hops[..n], mid, id), FilledByHops(hops[..n], mid, id),
                      if hops[n].market == mid then PaidBy(hops[n].side, hops[n].placed.value.fills, id) else 0,
                      if hops[n].market == mid then FilledBy(hops[n].side, hops[n].placed.value.fills, id) else 0);
    }
  }

  // ---------- Calls that match nothing ----------

  /** The bid is untouched, or gone. */
  ghost predicate StaysOrGoes(s: State, after: State, mid: MarketId, id: OrderId) {
    && mid in s.markets && mid in after.markets
    && after.markets[mid].terms == s.markets[mid].terms
    && after.prevSequence >= s.prevSequence
    && (BidAt(after, mid, id) == BidAt(s, mid, id) || BidAt(after, mid, id).None?)
  }

  lemma TakeLeavesOthers(b: Book, taken: OrderId, id: OrderId)
    requires BookOk(b)
    requires TakeOrder(b, taken).Some?
    ensures var c := TakeOrder(b, taken).value.0;
      Lookup(c.bids, id) == Lookup(b.bids, id) || Lookup(c.bids, id).None?
  {
    var p := TakeOrder(b, taken).value.1;
    if p.side == Buy {
      ReduceLookup(b.bids, taken, p.order.openQty, id);
    }
  }

  lemma {:induction false} TakesLeaveOthers(b: Book, ids: seq<OrderId>, id: OrderId)
    requires BookOk(b)
    requires TakeOrders(b, ids).Ok?
    ensures var c := TakeOrders(b, ids).value.0;
      Lookup(c.bids, id) == Lookup(b.bids, id) || Lookup(c.bids, id).None?
  {
    hide TakeOrder, BookOk, Lookup;
    if ids != [] {
      var n := |ids| - 1;
      TakesLeaveOthers(b, ids[..n], id);
      TakeOrdersFacts(b, ids[..n]);
      TakeLeavesOthers(TakeOrders(b, ids[..n]).value.0, ids[n], id);
    }
  }

  lemma CancelLeavesOthers(z: Sizes, s: State, account: AccountId, market: MarketId, taken: OrderId, mid: MarketId, id: OrderId)
    requires Known(z, s, mid, id)
    requires CancelOrder(z, s, account, market, taken).Ok?
    ensures StaysOrGoes(s, CancelOrder(z, s, account, market, taken).value, mid, id)
  {
    hide CancelOrder, Sound, TakeOrder, BookOk, Lookup, BalanceAt, Value;
    CancelEffect(z, s, account, market, taken, account, NativeNear);
    if market == mid {
      MarketOf(z, s, mid);
      TakeLeavesOthers(s.markets[mid].book, taken, id);
    }
  }

  lemma CancelAllTakes(z: Sizes, s: State, account: AccountId, market: MarketId, ids: seq<OrderId>)
    requires CancelAll(z, s, account, market, ids).Ok?
    ensures market in s.markets && TakeOrders(s.markets[market].book, ids).Ok?
    ensures var after := CancelAll(z, s, account, market, ids).value;
      after == s.(accounts := after.accounts,
                  markets := s.markets[market := s.markets[market].(book := TakeOrders(s.markets[market].book, ids).value.0)])
  {
    hide TakeOrders, ProcessRefunds, Enumerates, Covered, RemoveAllOrderInfos, ListedIds;
  }

  lemma CancelAllLeavesOthers(z: Sizes, s: State, account: AccountId, market: MarketId, ids: seq<OrderId>, mid: MarketId, id: OrderId)
    requires Known(z, s, mid, id)
    requires CancelAll(z, s, account, market, ids).Ok?
    ensures StaysOrGoes(s, CancelAll(z, s, account, market, ids).value, mid, id)
  {
    hide CancelAll, Sound, TakeOrders, BookOk, IndexAgrees, MarketOk, Lookup;
    MarketOf(z, s, mid);
    CancelAllTakes(z, s, account, market, ids);
    if market == mid {
      TakesLeaveOthers(s.markets[mid].book, ids, id);
    }
  }

  lemma {:induction false} CancelEachLeavesOthers(z: Sizes, s: State, market: MarketId, orders: seq<Order>, mid: MarketId, id: OrderId)
    requires Known(z, s, mid, id)
    requires CancelEach(z, s, market, orders).Ok?
    ensures StaysOrGoes(s, CancelEach(z, s, market, orders).value, mid, id)
  {
    hide CancelOrder, Sound, BidAt;
    if orders != [] {
      var n := |orders| - 1;
      var before := CancelEach(z, s, market, orders[..n]).value;
      CancelEachKeepsSound(z, s, market, orders[..n]);
      CancelEachLeavesOthers(z, s, market, orders[..n], mid, id);
      CancelLeavesOthers(z, before, orders[n].owner, market, orders[n].id, mid, id);
    }
  }

  lemma QuietStep(z: Sizes, s: State, a: Action, mid: MarketId, id: OrderId)
    requires Known(z, s, mid, id)
    requires !a.ActNewOrder? && !a.ActSwap?
    ensures StaysOrGoes(s, Next(z, s, a), mid, id)
  {
    hide CancelOrder, CancelAll, CancelEach, InternalDeposit, StorageAvailable, Covered, Locked, Snapshot, Pow10, Sound, Lookup;
    if Apply(z, s, a).Ok? {
      match a
      case ActCancel(caller, market, taken) => CancelLeavesOthers(z, s, caller, market, taken, mid, id);
      case ActCancelAll(caller, market, ids) => CancelAllLeavesOthers(z, s, caller, market, ids, mid, id);
      case ActClear(caller, market, limit) =>
        CancelEachLeavesOthers(z, s, market, Snapshot(s.markets[market].book, limit), mid, id);
      case _ =>
    }
  }

  // ---------- Every call, and every run ----------

  lemma QuietTakes(z: Sizes, s: State, a: Action, mid: MarketId, id: OrderId)
    requires !a.ActNewOrder? && !a.ActSwap?
    requires StaysOrGoes(s, Next(z, s, a), mid, id)
    ensures StateMoves(s, Next(z, s, a), mid, id, Refunded(z, s, a, mid, id), 0)
  {
    hide Next, QuoteValue, BidAt;
  }

  /** Whatever is called, what leaves a bid is paid to its owner or refunded, but for a unit a fill. */
  lemma StepTakes(z: Sizes, s: State, a: Action, mid: MarketId, id: OrderId)
    requires Known(z, s, mid, id)
    ensures StateMoves(s, Next(z, s, a), mid, id, Paid(z, s, a, mid, id) + Refunded(z, s, a, mid, id), Filled(z, s, a, mid, id))
  {
    hide NewOrder, SwapChain, Sound, BidMoves, Lookup;
    if !a.ActNewOrder? && !a.ActSwap? {
      hide Next, Apply, StateMoves;
      QuietStep(z, s, a, mid, id);
      QuietTakes(z, s, a, mid, id);
      NothingPaid(z, s, a, mid, id);
    } else if Apply(z, s, a).Err? {
      StillBid(s.markets[mid].terms.lots, BidAt(s, mid, id));
    } else if a.ActNewOrder? {
      OrderTakes(z, s, a.caller, a.market, a.params, a.placed, a.now, mid, id);
    } else {
      var start := AddHeld(s, a.token, a.amount);
      assert Known(z, start, mid, id) by {
        HeldKeepsSound(z, s, a.token, a.amount);
      }
      ChainTakes(z, start, a.signer, a.token, a.amount, a.hops, mid, id);
    }
  }

  lemma NothingPaid(z: Sizes, s: State, a: Action, mid: MarketId, id: OrderId)
    requires !a.ActNewOrder? && !a.ActSwap?
    ensures Paid(z, s, a, mid, id) == 0 && Filled(z, s, a, mid, id) == 0
  {
    hide Apply;
  }

  lemma HeldKeepsSound(z: Sizes, s: State, t: Token, amount: nat)
    requires Sound(z, s)
    ensures Sound(z, AddHeld(s, t, amount))
  {
    hide AllCovered, ShapesOk, MarketsOk, NoSharedIds, TotalStorage;
  }

  ghost function PaidOver(z: Sizes, s: State, actions: seq<Action>, mid: MarketId, id: OrderId): nat {
    if actions == [] then 0
    else
      PaidOver(z, s, actions[..|actions| - 1], mid, id) + Paid(z, Run(z, s, actions[..|actions| - 1]), actions[|actions| - 1], mid, id)
  }

  ghost function RefundedOver(z: Sizes, s: State, actions: seq<Action>, mid: MarketId, id: OrderId): nat {
    if actions == [] then 0
    else
      RefundedOver(z, s, actions[..|actions| - 1], mid, id)
      + Refunded(z, Run(z, s, actions[..|actions| - 1]), actions[|actions| - 1], mid, id)
  }

  ghost function FilledOver(z: Sizes, s: State, actions: seq<Action>, mid: MarketId, id: OrderId): nat {
    if actions == [] then 0
    else
      FilledOver(z, s, actions[..|actions| - 1], mid, id) + Filled(z, Run(z, s, actions[..|actions| - 1]), actions[|actions| - 1], mid, id)
  }

  lemma {:induction false} RunTakes(z: Sizes, s: State, actions: seq<Action>, mid: MarketId, id: OrderId)
    requires Known(z, s, mid, id)
    ensures Known(z, Run(z, s, actions), mid, id)
    ensures StateMoves(s, Run(z, s, actions), mid, id,
                       PaidOver(z, s, actions, mid, id) + RefundedOver(z, s, actions, mid, id), FilledOver(z, s, actions, mid, id))
  {
    hide Next, Sound, BidMoves, BidAt, Paid, Refunded, Filled;
    if actions == [] {
      StillBid(s.markets[mid].terms.lots, BidAt(s, mid, id));
    } else {
      var n := |actions| - 1;
      var before := Run(z, s, actions[..n]);
      RunTakes(z, s, actions[..n], mid, id);
      ApplyKeepsSound(z, before, actions[n]);
      StepTakes(z, before, actions[n], mid, id);
      StateMovesChain(s, before, Next(z, before, actions[n]), mid, id,
                      PaidOver(z, s, actions[..n], mid, id) + RefundedOver(z, s, actions[..n], mid, id), FilledOver(z, s, actions[..n], mid, id),
                      Paid(z, before, actions[n], mid, id) + Refunded(z, before, actions[n], mid, id), Filled(z, before, actions[n], mid, id));
    }
  }

  /**
   * The whole life of a bid: after its posting, through any calls in any order, what it pays, what is
   * refunded of it and what cancelling it now would give back together stay within the amount locked when
   * it was posted. At a whole number of lots they fall short of it by at most one unit for each of its
   * fills, and by nothing when the lots divide evenly.
   */
  lemma LockCoversBidOverRuns(z: Sizes, s: State, caller: AccountId, mid: MarketId, p: NewOrderParams, pl: Placement, now: nat, actions: seq<Action>)
    requires Sound(z, s)
    requires NewOrder(z, s, caller, mid, p, Some(pl), now).Ok?
    requires p.side == Buy && pl.openQty > 0
    ensures mid in s.markets && p.limitPrice.Some?
    ensures var posted := NewOrder(z, s, caller, mid, p, Some(pl), now).value;
      var lots, limit := s.markets[mid].terms.lots, p.limitPrice.value;
      var used := PaidOver(z, posted, actions, mid, pl.id) + RefundedOver(z, posted, actions, mid, pl.id)
                + Worth(lots, BidAt(Run(z, posted, actions), mid, pl.id));
      var short := LockAt(lots, limit, pl.openQty) - used;
      && 0 <= short
      && (ToLots(limit, lots.quote) * lots.quote == limit ==> short <= FilledOver(z, posted, actions, mid, pl.id))
      && (ToLots(limit, lots.quote) * lots.quote == limit && EvenLots(lots) ==> short == 0)
  {
    hide NewOrder, Run, Sound, BidAt, TakeOrder, LockAt, QuoteValue, ToLots, Has, PaidOver, RefundedOver, FilledOver, EvenLots, TotalQty;
    var posted := NewOrder(z, s, caller, mid, p, Some(pl), now).value;
    OrderKeepsSound(z, s, caller, mid, p, Some(pl), now);
    PostedIsRemembered(z, s, caller, mid, p, pl, now);
    var t := s.markets[mid].terms;
    PlacedNumber(z, s, caller, mid, p, pl, now);
    PostedBid(z, s, caller, mid, p, pl, now);
    RunTakes(z, posted, actions, mid, pl.id);
    LotsWithin(p.limitPrice.value, t.lots.quote);
    LockCoversValue(t.lots, p.limitPrice.value, ToLots(p.limitPrice.value, t.lots.quote), pl.openQty);
  }

  lemma PostedBid(z: Sizes, s: State, caller: AccountId, mid: MarketId, p: NewOrderParams, pl: Placement, now: nat)
    requires Sound(z, s)
    requires NewOrder(z, s, caller, mid, p, Some(pl), now).Ok?
    requires p.side == Buy && pl.openQty > 0
    ensures mid in s.markets && p.limitPrice.Some?
    ensures var posted := NewOrder(z, s, caller, mid, p, Some(pl), now).value;
      var t := s.markets[mid].terms;
      && mid in posted.markets && posted.markets[mid].terms == t
      && BidAt(posted, mid, pl.id) == Some(Order(pl.id, caller, ToLots(p.limitPrice.value, t.lots.quote), pl.openQty))
  {
    hide NewOrder, Sound, ToLots, Has, TotalQty, Prepare, SettleTrade, SettleTaker, EngineOk, NewBook, Covered;
    PostedIsRemembered(z, s, caller, mid, p, pl, now);
    var o, tr, taker := OrderUnfolds(z, s, caller, mid, p, Some(pl), now);
  }
}

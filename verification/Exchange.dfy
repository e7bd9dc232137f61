/**
 * The exchange as a state machine over stored values. Every public call is a function from a state to
 * the next state, or to the panic that reverts the call.
 */
module Exchange {
  import opened Arithmetic
  import opened Fees
  import opened Ledger
  import opened MatchingEngine
  import opened OrderBook
  import opened OrderIndex
  import opened Orders
  import opened Outcomes
  import opened Settlement
  import opened StoredAccount
  import opened StoredMarket
  import opened Types

  /** A transfer out of the contract, from scheduling to the end of its callback. */
  datatype SendStatus = InFlight | Delivered | Bounced | Closed(creditedTo: Option<AccountId>)
  datatype Send = Send(token: Token, receiver: AccountId, amount: nat, status: SendStatus)

  type Markets = map<MarketId, VMarket>

  /**
   * The stored contract, and three things the chain knows: the sends so far, the tokens the contract
   * holds for trading, and the NEAR it holds against storage deposits.
   */
  datatype State = State(
    owner: AccountId,
    accounts: Accounts,
    markets: Markets,
    prevSequence: nat,
    mode: ContractState,
    sends: seq<Send>,
    held: map<Token, int>,
    storageHeld: int)

  function Held(s: State, t: Token): int {
    if t in s.held then s.held[t] else 0
  }

  function AddHeld(s: State, t: Token, amount: int): State {
    s.(held := s.held[t := Held(s, t) + amount])
  }

  /** The yoctoNEAR that a call requires its caller to attach, and keeps. */
  function TakeYocto(s: State): State {
    AddHeld(s, NativeNear, 1)
  }

  /** The yoctoNEAR of its own that the contract attaches to a transfer of any other token. */
  function Attached(t: Token): nat {
    if t == NativeNear then 0 else 1
  }

  function Schedule(s: State, receiver: AccountId, t: Token, amount: nat): State {
    s.(sends := s.sends + [Send(t, receiver, amount, InFlight)])
  }

  // ---------- New orders ----------

  /** What placing an order leaves for the caller to save: the market and the taker's account in memory. */
  datatype Placed = Placed(accounts: Accounts, market: VMarket, taker: VAccount)

  /** `taker` is the taker's account as it was loaded before the makers and the referrer are settled. */
  ghost function Place(z: Sizes, accounts: Accounts, m: VMarket, sequence: nat, caller: AccountId, mid: MarketId, p: NewOrderParams,
                       placed: Option<Placement>, now: nat, taker: VAccount): Result<Placed>
    requires ValidOrder(p)
  {
    var o :- Prepare(m.terms, m.book, p, sequence);
    :- Need(placed.Some?, SelfTrade);
    var pl := placed.value;
    :- Need(EngineOk(m.terms.lots, m.book, caller, o, pl), NotAPlacement);
    var tr :- SettleTrade(z, m.terms, mid, o.side, accounts, pl.fills, p.referrer, m.feesAccrued);
    // A limit order accrues the fees before its taker settles, a market order after.
    :- Need(p.orderType.Market? || tr.fees < TWO_128, Overflow);
    var settled :- SettleTaker(m.terms, mid, p, o, pl, tr, taker, now);
    :- Need(tr.fees < TWO_128, Overflow);
    Ok(Placed(tr.accounts, m.(book := NewBook(m.book, caller, o, pl), feesAccrued := tr.fees), settled))
  }

  ghost function NewOrder(z: Sizes, s: State, caller: AccountId, mid: MarketId, p: NewOrderParams,
                          placed: Option<Placement>, now: nat): Result<State>
  {
    if !s.mode.Active? then Err(ContractNotActive)
    else if !ValidOrder(p) then Err(InvalidOrder)
    else if mid !in s.markets then Err(MarketNotFound)
    else if !s.markets[mid].state.Trading? then Err(MarketNotActive)
    else if caller !in s.accounts then Err(AccountNotFound)
    else
      var done :- Place(z, s.accounts, s.markets[mid], s.prevSequence + 1, caller, mid, p, placed, now, s.accounts[caller]);
      var accounts :- Save(z, done.accounts, caller, done.taker);
      Ok(s.(accounts := accounts, markets := s.markets[mid := done.market], prevSequence := s.prevSequence + 1))
  }

  // ---------- Swaps ----------

  /** One swap action, with the engine's answer to it. */
  datatype Hop = Hop(market: MarketId, side: Side, minOutput: Option<nat>, referrer: Option<AccountId>, placed: Option<Placement>)

  /** The state after some hops, and the token and amount in hand. */
  datatype Carried = Carried(state: State, token: Token, amount: nat, refund: nat)

  function SwapOrder(t: Terms, side: Side, amount: nat, sequence: nat): Result<EngineOrder> {
    if side == Buy then
      var withheld :- Withhold(t.takerRate, amount);
      Ok(EngineOrder(sequence, None, ToLots(TWO_128 - 1, t.lots.base), Some(ToLots(withheld, t.lots.quote)), Buy, OrderType.Market))
    else
      Ok(EngineOrder(sequence, None, ToLots(amount, t.lots.base), None, Sell, OrderType.Market))
  }

  lemma SwapOrderShape(t: Terms, side: Side, amount: nat, sequence: nat)
    requires SwapOrder(t, side, amount, sequence).Ok?
    ensures var o := SwapOrder(t, side, amount, sequence).value;
      && o.side == side && o.sequence == sequence && o.limitPrice.None? && o.orderType.Market?
      && (o.availableQuote.Some? ==> o.availableQuote.value < TWO_64)
  {
    hide Withhold;
  }

  function InputToken(t: Terms, side: Side): Token {
    if side == Buy then t.quoteToken else t.baseToken
  }

  function OutputToken(t: Terms, side: Side): Token {
    if side == Buy then t.baseToken else t.quoteToken
  }

  function SwapOutput(side: Side, tr: Trade): Result<nat> {
    if side == Buy then Ok(tr.base) else Minus(tr.quote, tr.fee)
  }

  function SwapRefund(side: Side, amount: nat, tr: Trade): Result<nat> {
    if side == Buy then
      var rest :- Minus(amount, tr.quote);
      Minus(rest, tr.fee)
    else Minus(amount, tr.base)
  }

  datatype Swapped = Swapped(accounts: Accounts, market: VMarket, output: nat, refund: nat)

  /** A market order for the signer's wallet; nothing is taken from or credited to an exchange account of the signer. */
  ghost function Swap(z: Sizes, accounts: Accounts, m: VMarket, sequence: nat, signer: AccountId, mid: MarketId, side: Side, amount: nat,
                      referrer: Option<AccountId>, placed: Option<Placement>): Result<Swapped>
  {
    var o :- SwapOrder(m.terms, side, amount, sequence);
    :- Need(placed.Some?, SelfTrade);
    var pl := placed.value;
    :- Need(EngineOk(m.terms.lots, m.book, signer, o, pl), NotAPlacement);
    var tr :- SettleTrade(z, m.terms, mid, side, accounts, pl.fills, referrer, m.feesAccrued);
    :- Need(tr.fees < TWO_128, Overflow);
    var output :- SwapOutput(side, tr);
    var refund :- SwapRefund(side, amount, tr);
    Ok(Swapped(tr.accounts, m.(book := NewBook(m.book, signer, o, pl), feesAccrued := tr.fees), output, refund))
  }

  ghost function SwapHop(z: Sizes, s: State, signer: AccountId, token: Token, amount: nat, h: Hop): Result<Carried> {
    if h.market !in s.markets then Err(MarketNotFound)
    else
      var m := s.markets[h.market];
      :- Need(token == InputToken(m.terms, h.side), WrongSwapToken);
      :- Need(m.state.Trading?, MarketNotActive);
      var done :- Swap(z, s.accounts, m, s.prevSequence + 1, signer, h.market, h.side, amount, h.referrer, h.placed);
      :- Need(h.minOutput.Some? ==> h.minOutput.value <= done.output, ExceededSlippage);
      Ok(Carried(
        s.(accounts := done.accounts, markets := s.markets[h.market := done.market], prevSequence := s.prevSequence + 1),
        OutputToken(m.terms, h.side), done.output, done.refund))
  }

  ghost function SwapChain(z: Sizes, s: State, signer: AccountId, token: Token, amount: nat, hops: seq<Hop>): Result<Carried> {
    if hops == [] then Ok(Carried(s, token, amount, 0))
    else
      var c :- SwapChain(z, s, signer, token, amount, hops[..|hops| - 1]);
      SwapHop(z, c.state, signer, c.token, c.amount, hops[|hops| - 1])
  }

  /** The tokens have arrived before the first hop; the refund of every hop is dropped. */
  ghost function ExecuteSwaps(z: Sizes, s: State, signer: AccountId, sender: AccountId, token: Token, amount: nat,
                              hops: seq<Hop>): Result<State>
  {
    if !s.mode.Active? then Err(ContractNotActive)
    else if hops == [] then Err(NoSwaps)
    else if hops[|hops| - 1].minOutput.None? then Err(ExceededSlippage)
    else
      var c :- SwapChain(z, AddHeld(s, token, amount), signer, token, amount, hops);
      Ok(if c.amount > 0 then Schedule(c.state, sender, c.token, c.amount) else c.state)
  }

  // ---------- Cancels ----------

  function EscrowToken(t: Terms, side: Side): Token {
    if side == Buy then t.quoteToken else t.baseToken
  }

  /** The refund of a cancelled order, with the overflow checks of its computation. */
  function RefundAmount(t: Terms, p: Pending): Result<nat> {
    if p.side == Buy then
      var _ :- U256(p.order.openQty * UnitValue(t.lots, p.order.price));
      U128(QuoteValue(t.lots, p.order.openQty, p.order.price))
    else U128(p.order.openQty * t.lots.base)
  }

  ghost function RefundOne(t: Terms, mid: MarketId, owner: AccountId, a: VAccount, p: Pending): Result<VAccount> {
    if p.order.owner != owner then Err(OrderNotOwned)
    else
      var amount :- RefundAmount(t, p);
      var credited :- Deposit(a, EscrowToken(t, p.side), amount);
      var _ :- ToNative(p.order.openQty, t.lots.base);
      Ok(RemoveOrderInfo(credited, mid, p.order.id))
  }

  ghost function ProcessRefunds(t: Terms, mid: MarketId, owner: AccountId, a: VAccount, pending: seq<Pending>): Result<VAccount> {
    if pending == [] then Ok(a)
    else
      var earlier :- ProcessRefunds(t, mid, owner, a, pending[..|pending| - 1]);
      RefundOne(t, mid, owner, earlier, pending[|pending| - 1])
  }

  ghost function CancelOrder(z: Sizes, s: State, account: AccountId, mid: MarketId, id: OrderId): Result<State> {
    if mid !in s.markets then Err(MarketNotFound)
    else
      var m := s.markets[mid];
      :- Need(CanCancel(m), CannotCancel);
      :- Need(account in s.accounts, AccountNotFound);
      :- Need(Has(s.accounts[account], mid, id), OrderNotFound);
      var taken :- Expect(TakeOrder(m.book, id), OrderNotOnBook);
      var refunded :- ProcessRefunds(m.terms, mid, account, RemoveOrderInfo(s.accounts[account], mid, id), [taken.1]);
      var accounts :- Save(z, s.accounts, account, refunded);
      Ok(s.(accounts := accounts, markets := s.markets[mid := m.(book := taken.0)]))
  }

  /** `ids` is the order in which the hash map hands out the account's order ids. */
  ghost function CancelAll(z: Sizes, s: State, account: AccountId, mid: MarketId, ids: seq<OrderId>): Result<State> {
    if mid !in s.markets then Err(MarketNotFound)
    else
      var m := s.markets[mid];
      :- Need(CanCancel(m), CannotCancel);
      :- Need(account in s.accounts, AccountNotFound);
      :- Need(Enumerates(ids, ListedIds(s.accounts[account], mid)), NotAnEnumeration);
      var taken :- TakeOrders(m.book, ids);
      var refunded :- ProcessRefunds(m.terms, mid, account, RemoveAllOrderInfos(s.accounts[account], mid), taken.1);
      var accounts :- Save(z, s.accounts, account, refunded);
      Ok(s.(accounts := accounts, markets := s.markets[mid := m.(book := taken.0)]))
  }

  /** Cancels the orders of a snapshot one by one, each against the state the previous one left. */
  ghost function CancelEach(z: Sizes, s: State, mid: MarketId, orders: seq<Order>): Result<State> {
    if orders == [] then Ok(s)
    else
      var earlier :- CancelEach(z, s, mid, orders[..|orders| - 1]);
      CancelOrder(z, earlier, orders[|orders| - 1].owner, mid, orders[|orders| - 1].id)
  }

  function Snapshot(b: Book, limit: Option<nat>): seq<Order> {
    var all := b.asks + b.bids;
    all[..Min(match limit case Some(n) => n case None => 0xFFFF, |all|)]
  }

  ghost function ClearOrderbook(z: Sizes, s: State, mid: MarketId, limit: Option<nat>): Result<State> {
    if mid !in s.markets then Err(MarketNotFound)
    else if !CanCancel(s.markets[mid]) then Err(CannotCancel)
    else CancelEach(z, s, mid, Snapshot(s.markets[mid].book, limit))
  }

  // ---------- Deposits and withdrawals ----------

  ghost function InternalDeposit(z: Sizes, accounts: Accounts, id: AccountId, t: Token, amount: nat): Result<Accounts> {
    if id !in accounts then Err(AccountNotFound)
    else
      var a :- Deposit(accounts[id], t, amount);
      Save(z, accounts, id, a)
  }

  ghost function DepositTokens(z: Sizes, s: State, account: AccountId, t: Token, amount: nat): Result<State> {
    if !s.mode.Active? then Err(ContractNotActive)
    else
      var accounts :- InternalDeposit(z, s.accounts, account, t, amount);
      Ok(AddHeld(s.(accounts := accounts), t, amount))
  }

  ghost function WithdrawTokens(z: Sizes, s: State, caller: AccountId, t: Token, amount: nat): Result<State> {
    if !s.mode.Active? then Err(ContractNotActive)
    else if amount == 0 then Err(InvalidAmount)
    else if caller !in s.accounts then Err(AccountNotFound)
    else
      var a :- Withdraw(s.accounts[caller], t, amount);
      var accounts :- Save(z, s.accounts, caller, a);
      Ok(Schedule(TakeYocto(s.(accounts := accounts)), caller, t, amount))
  }

  /**
   * The token contract executes the transfer, or rejects it. The yoctoNEAR attached to it is gone with the
   * first and comes back with the second.
   */
  ghost function TransferSettles(s: State, i: nat, success: bool): Result<State> {
    if i >= |s.sends| || !s.sends[i].status.InFlight? then Err(NoSuchSend)
    else if success then
      var paid := AddHeld(s, s.sends[i].token, 0 - s.sends[i].amount);
      Ok(AddHeld(paid, NativeNear, 0 - Attached(s.sends[i].token)).(sends := s.sends[i := s.sends[i].(status := Delivered)]))
    else
      Ok(s.(sends := s.sends[i := s.sends[i].(status := Bounced)]))
  }

  function CreditTarget(s: State, receiver: AccountId): AccountId {
    if receiver in s.accounts then receiver else s.owner
  }

  /** The callback after a transfer; the chain runs it once, even if it panics. */
  ghost function WithdrawCallback(z: Sizes, s: State, i: nat): Result<State> {
    if i >= |s.sends| then Err(NoSuchSend)
    else
      var send := s.sends[i];
      match send.status
      case Delivered => Ok(s.(sends := s.sends[i := send.(status := Closed(None))]))
      case Bounced =>
        var target := CreditTarget(s, send.receiver);
        (match InternalDeposit(z, s.accounts, target, send.token, send.amount)
         case Ok(accounts) => Ok(s.(accounts := accounts, sends := s.sends[i := send.(status := Closed(Some(target)))]))
         case Err(_) => Ok(s.(sends := s.sends[i := send.(status := Closed(None))])))
      case _ => Err(NoSuchSend)
  }

  // ---------- Storage deposits ----------

  ghost function StorageDeposit(z: Sizes, s: State, account: AccountId, registrationOnly: bool, amount: nat): Result<State> {
    if !s.mode.Active? then Err(ContractNotActive)
    else if account in s.accounts then
      if registrationOnly && amount > 0 then Ok(s)
      else
        var total :- U128(s.accounts[account].storageBalance + amount);
        var accounts :- Save(z, s.accounts, account, s.accounts[account].(storageBalance := total));
        Ok(s.(accounts := accounts, storageHeld := s.storageHeld + amount))
    else
      SizeAtLeastAccount(z, EMPTY_ACCOUNT);
      var minimum: nat := Locked(z, EMPTY_ACCOUNT);
      :- Need(amount >= minimum, InsufficientStorage);
      var kept := if registrationOnly then minimum else amount;
      var accounts :- Save(z, s.accounts, account, EMPTY_ACCOUNT.(storageBalance := kept));
      Ok(s.(accounts := accounts, storageHeld := s.storageHeld + kept))
  }

  /** The part of a storage deposit that is not locked. */
  ghost function StorageAvailable(z: Sizes, a: VAccount): Result<nat> {
    SizeAtLeastAccount(z, a);
    Minus(a.storageBalance, Max(Locked(z, a), ACCOUNT_SIZE * z.byteCost))
  }

  ghost function StorageWithdraw(z: Sizes, s: State, caller: AccountId, amount: Option<nat>): Result<State> {
    if !s.mode.Active? then Err(ContractNotActive)
    else if caller !in s.accounts then Err(AccountNotFound)
    else
      var a := s.accounts[caller];
      var available :- StorageAvailable(z, a);
      var taken := match amount case Some(n) => n case None => available;
      :- Need(taken <= available, InsufficientStorage);
      if taken == 0 then Ok(TakeYocto(s))
      else
        var rest :- Minus(a.storageBalance, taken);
        var accounts :- Save(z, s.accounts, caller, a.(storageBalance := rest));
        Ok(TakeYocto(s.(accounts := accounts, storageHeld := s.storageHeld - taken)))
  }

  ghost function StorageUnregister(s: State, caller: AccountId): Result<State> {
    if !s.mode.Active? then Err(ContractNotActive)
    else if caller !in s.accounts then Err(AccountNotFound)
    else
      var a := s.accounts[caller];
      :- Need(a.balances == map[] && a.openOrders == map[], AccountNotEmpty);
      Ok(TakeYocto(s.(accounts := s.accounts - {caller}, storageHeld := s.storageHeld - a.storageBalance)))
  }

  // ---------- Markets ----------

  /** A market enters with an empty book, once its decimals are known. */
  ghost function CreateMarket(s: State, mid: MarketId, t: MarketTerms, decimals: nat): Result<State> {
    if !s.mode.Active? then Err(ContractNotActive)
    else if !ValidRates(t.makerRate, t.takerRate) || t.baseToken == t.quoteToken then Err(InvalidMarket)
    else if mid in s.markets then Err(MarketExists)
    else if !(ValidLotSize(t.lots.base) && ValidLotSize(t.lots.quote)) then Err(InvalidMarket)
    else
      // Arguments are unsigned integers of fixed width.
      :- Need(t.lots.base < TWO_128 && t.lots.quote < TWO_128 && t.takerRate <= 255, InvalidMarket);
      :- Need(t.lots.denomination == Pow10(decimals) < TWO_128, InvalidMarket);
      Ok(s.(markets := s.markets[mid := VMarket(t, Trading, EMPTY_BOOK, 0)]))
  }

  /** The owner opens, halts or closes a market at will. */
  function SetMarketState(s: State, caller: AccountId, mid: MarketId, state: MarketState): Result<State> {
    if caller != s.owner then Err(NotOwner)
    else if mid !in s.markets then Err(MarketNotFound)
    else Ok(s.(markets := s.markets[mid := s.markets[mid].(state := state)]))
  }

  // ---------- Runs ----------

  datatype Action =
    | ActNewOrder(caller: AccountId, market: MarketId, params: NewOrderParams, placed: Option<Placement>, now: nat)
    | ActSwap(signer: AccountId, sender: AccountId, token: Token, amount: nat, hops: seq<Hop>)
    | ActCancel(caller: AccountId, market: MarketId, id: OrderId)
    | ActCancelAll(caller: AccountId, market: MarketId, ids: seq<OrderId>)
    | ActClear(caller: AccountId, market: MarketId, limit: Option<nat>)
    | ActDeposit(account: AccountId, token: Token, amount: nat)
    | ActWithdraw(caller: AccountId, token: Token, amount: nat)
    | ActTransfer(send: nat, success: bool)
    | ActCallback(send: nat)
    | ActStorageDeposit(account: AccountId, registrationOnly: bool, amount: nat)
    | ActStorageWithdraw(caller: AccountId, requested: Option<nat>)
    | ActUnregister(caller: AccountId)
    | ActCreateMarket(market: MarketId, terms: MarketTerms, decimals: nat)
    | ActSetMode(caller: AccountId, mode: ContractState)
    | ActSetMarketState(caller: AccountId, market: MarketId, marketState: MarketState)

  ghost function Apply(z: Sizes, s: State, a: Action): Result<State> {
    match a
    case ActNewOrder(caller, mid, p, placed, now) => NewOrder(z, s, caller, mid, p, placed, now)
    case ActSwap(signer, sender, t, amount, hops) => ExecuteSwaps(z, s, signer, sender, t, amount, hops)
    case ActCancel(caller, mid, id) =>
      if s.mode.Paused? then Err(CannotCancel) else CancelOrder(z, s, caller, mid, id)
    case ActCancelAll(caller, mid, ids) =>
      if !s.mode.Active? then Err(ContractNotActive) else CancelAll(z, s, caller, mid, ids)
    case ActClear(caller, mid, limit) =>
      if caller != s.owner then Err(NotOwner) else ClearOrderbook(z, s, mid, limit)
    case ActDeposit(account, t, amount) => DepositTokens(z, s, account, t, amount)
    case ActWithdraw(caller, t, amount) => WithdrawTokens(z, s, caller, t, amount)
    case ActTransfer(i, success) => TransferSettles(s, i, success)
    case ActCallback(i) => WithdrawCallback(z, s, i)
    case ActStorageDeposit(account, only, amount) => StorageDeposit(z, s, account, only, amount)
    case ActStorageWithdraw(caller, amount) => StorageWithdraw(z, s, caller, amount)
    case ActUnregister(caller) => StorageUnregister(s, caller)
    case ActCreateMarket(mid, t, decimals) => CreateMarket(s, mid, t, decimals)
    case ActSetMode(caller, mode) => if caller != s.owner then Err(NotOwner) else Ok(s.(mode := mode))
    case ActSetMarketState(caller, mid, state) => SetMarketState(s, caller, mid, state)
  }

  /** A call that panics leaves the state as it was. */
  ghost function Next(z: Sizes, s: State, a: Action): State {
    match Apply(z, s, a)
    case Ok(after) => after
    case Err(_) => s
  }

  ghost function Run(z: Sizes, s: State, actions: seq<Action>): State {
    if actions == [] then s
    else Next(z, Run(z, s, actions[..|actions| - 1]), actions[|actions| - 1])
  }

  /** A freshly deployed contract. */
  function Deployed(owner: AccountId): State {
    State(owner, map[], map[], 0, Active, [], map[], 0)
  }
}

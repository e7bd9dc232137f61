/**
 * Custody: what the contract holds of a token against everything it owes in that token. Every amount by
 * which a call moves the gap between the two is named.
 */
module Solvency {
  import opened Arithmetic
  import opened Exchange
  import opened Fees
  import opened Ledger
  import opened MatchingEngine
  import opened OrderBook
  import opened Orders
  import opened Outcomes
  import opened Settlement
  import opened StoredAccount
  import opened StoredMarket
  import opened Sums
  import opened Types

  // ---------- Claims ----------

  function BookClaim(t: Terms, b: Book, token: Token): int {
    (if token == t.quoteToken then Escrow(t.lots, Buy, b.bids) else 0)
    + (if token == t.baseToken then Escrow(t.lots, Sell, b.asks) else 0)
  }

  /** What a market owes: the refund value of its resting orders, and its accrued fees. */
  function MarketClaim(m: VMarket, token: Token): int {
    BookClaim(m.terms, m.book, token) + (if token == m.terms.quoteToken then m.feesAccrued else 0)
  }

  ghost function ClaimsOf(markets: Markets, token: Token): map<MarketId, int> {
    map mid | mid in markets :: MarketClaim(markets[mid], token)
  }

  ghost function TotalClaims(markets: Markets, token: Token): int {
    Sum(ClaimsOf(markets, token))
  }

  lemma TotalClaimsUpdate(markets: Markets, mid: MarketId, m: VMarket, token: Token)
    ensures TotalClaims(markets[mid := m], token)
         == TotalClaims(markets, token) - (if mid in markets then MarketClaim(markets[mid], token) else 0) + MarketClaim(m, token)
  {
    SumUpdate(ClaimsOf(markets, token), mid, MarketClaim(m, token));
    assert ClaimsOf(markets[mid := m], token) == ClaimsOf(markets, token)[mid := MarketClaim(m, token)];
  }

  lemma TotalClaimsCover(markets: Markets, mid: MarketId, token: Token)
    requires mid in markets
    ensures 0 <= MarketClaim(markets[mid], token) <= TotalClaims(markets, token)
  {
    SumBounds(ClaimsOf(markets, token), mid);
  }

  /** An unresolved send claims its amount, and while in flight the yoctoNEAR that travels with it. */
  function SendClaim(send: Send, token: Token): nat {
    (if send.token == token && (send.status.InFlight? || send.status.Bounced?) then send.amount else 0)
    + (if token == NativeNear && send.status.InFlight? then Attached(send.token) else 0)
  }

  function TotalSends(sends: seq<Send>, token: Token): nat {
    if sends == [] then 0 else SendClaim(sends[0], token) + TotalSends(sends[1..], token)
  }

  lemma {:induction false} TotalSendsAppend(sends: seq<Send>, send: Send, token: Token)
    ensures TotalSends(sends + [send], token) == TotalSends(sends, token) + SendClaim(send, token)
  {
    if sends != [] {
      TotalSendsAppend(sends[1..], send, token);
      assert (sends + [send])[1..] == sends[1..] + [send];
    }
  }

  lemma {:induction false} TotalSendsUpdate(sends: seq<Send>, i: nat, send: Send, token: Token)
    requires i < |sends|
    ensures TotalSends(sends[i := send], token)
         == TotalSends(sends, token) - SendClaim(sends[i], token) + SendClaim(send, token)
  {
    if i > 0 {
      TotalSendsUpdate(sends[1..], i - 1, send, token);
      assert sends[i := send][1..] == sends[1..][i - 1 := send];
    } else {
      assert sends[i := send][1..] == sends[1..];
    }
  }

  /** Everything owed in a token: balances, escrow, accrued fees and transfers under way. */
  ghost function Liabilities(s: State, token: Token): int {
    TotalBalance(s.accounts, token) + TotalClaims(s.markets, token) + TotalSends(s.sends, token)
  }

  /** Tokens held beyond what is owed: rounding dust and amounts the code drops. */
  ghost function Gap(s: State, token: Token): int {
    Held(s, token) - Liabilities(s, token)
  }

  // ---------- Trades ----------

  /** Quote that leaves the bids' escrow without being paid to anyone when a sell order fills them. */
  function FillDust(lots: Lots, side: Side, b: Book, fills: seq<Fill>): int
    requires lots.denomination > 0
  {
    if side == Buy then 0
    else Escrow(lots, Buy, b.bids) - Escrow(lots, Buy, AfterFills(b.bids, fills)) - TotalQuote(fills)
  }

  /** What cancelling the resting part of an order would give back. */
  function PostedValue(lots: Lots, o: EngineOrder, pl: Placement): nat
    requires lots.denomination > 0
  {
    if pl.openQty == 0 || o.limitPrice.None? then 0 else Value(lots, o.side, o.limitPrice.value, pl.openQty)
  }

  lemma FillDustIsSmall(t: Terms, b: Book, taker: AccountId, o: EngineOrder, pl: Placement)
    requires EngineOk(t.lots, b, taker, o, pl)
    ensures 0 <= FillDust(t.lots, o.side, b, pl.fills) <= |pl.fills|
    ensures EvenLots(t.lots) ==> FillDust(t.lots, o.side, b, pl.fills) == 0
  {
    if o.side == Sell {
      BidsRelease(t.lots, taker, o.limitPrice, b.bids, pl.fills);
    }
  }

  /** What matching does to a market's escrow: the makers' falls by what they gave, the poster's rises. */
  lemma NewBookClaim(t: Terms, b: Book, taker: AccountId, o: EngineOrder, pl: Placement, token: Token)
    requires EngineOk(t.lots, b, taker, o, pl)
    ensures BookClaim(t, NewBook(b, taker, o, pl), token) == BookClaim(t, b, token)
      + (if token == EscrowToken(t, o.side) then PostedValue(t.lots, o, pl) else 0)
      - (if token == OutputToken(t, o.side) then
           (if o.side == Buy then TotalQty(pl.fills) * t.lots.base
            else TotalQuote(pl.fills) + FillDust(t.lots, o.side, b, pl.fills))
         else 0)
  {
    var filled := FilledBook(b, o.side, pl.fills);
    if o.side == Buy {
      AsksRelease(t.lots, taker, o.limitPrice, b.asks, pl.fills);
    }
    if pl.openQty > 0 {
      EscrowInsert(t.lots, o.side, Resting(filled, o.side), pl.rank, PostedOrder(taker, o, pl));
    }
  }

  lemma {:induction false} TakerEarnsNothing(t: Terms, taker: AccountId, side: Side, limit: Option<nat>, os: seq<Order>, fills: seq<Fill>, token: Token)
    requires FillsOk(t.lots, taker, side, limit, os, fills)
    ensures Earned(t, side, fills, taker, token) == 0
  {
    if fills != [] {
      TakerEarnsNothing(t, taker, side, limit, os, Init(fills), token);
    }
  }

  /** What the maker and referrer phases of a trade do, account by account and in total. */
  lemma TradeEffect(z: Sizes, t: Terms, mid: MarketId, side: Side, accounts: Accounts, fills: seq<Fill>,
                    referrer: Option<AccountId>, fees: nat, a: AccountId, token: Token)
    requires SettleTrade(z, t, mid, side, accounts, fills, referrer, fees).Ok?
    ensures var tr := SettleTrade(z, t, mid, side, accounts, fills, referrer, fees).value;
      && (a in tr.accounts <==> a in accounts)
      && BalanceAt(tr.accounts, a, token) == BalanceAt(accounts, a, token) + Earned(t, side, fills, a, token)
           + (if referrer == Some(a) && token == t.quoteToken then tr.referral else 0)
      && TotalBalance(tr.accounts, token) == TotalBalance(accounts, token) + MakersReceive(t, side, fills, token)
           + (if token == t.quoteToken then tr.referral else 0)
  {
    hide Covered, SettleMakers, SettleReferrer, Earned, MakersReceive, TotalBalance, Balance;
    var tr := SettleTrade(z, t, mid, side, accounts, fills, referrer, fees).value;
    var s := SettleMakers(z, t, mid, side, accounts, fills).value;
    MakersAreFolded(z, t, mid, side, accounts, fills, a, token);
    MakersTotal(z, t, mid, side, accounts, fills, token);
    ReferrerCases(z, t.quoteToken, s.accounts, referrer, tr.fee - s.rebate, token);
    ReferrerCases(z, t.quoteToken, s.accounts, referrer, tr.fee - s.rebate, t.quoteToken);
    if tr.accounts != s.accounts {
      TotalBalanceUpdate(s.accounts, referrer.value, tr.accounts[referrer.value], token);
    }
  }

  /**
   * The value a trade takes from the books and the value it gives out agree: makers, referrer and fee
   * income together receive what leaves the makers' escrow and what the taker pays.
   */
  lemma TradeBalances(z: Sizes, t: Terms, mid: MarketId, accounts: Accounts, b: Book, taker: AccountId, o: EngineOrder, pl: Placement,
                      referrer: Option<AccountId>, fees: nat, token: Token)
    requires EngineOk(t.lots, b, taker, o, pl)
    requires SettleTrade(z, t, mid, o.side, accounts, pl.fills, referrer, fees).Ok?
    ensures var tr := SettleTrade(z, t, mid, o.side, accounts, pl.fills, referrer, fees).value;
      TotalBalance(tr.accounts, token) + MarketClaim(VMarket(t, Trading, NewBook(b, taker, o, pl), tr.fees), token)
      == TotalBalance(accounts, token) + MarketClaim(VMarket(t, Trading, b, fees), token)
         + (if token == EscrowToken(t, o.side) then PostedValue(t.lots, o, pl) else 0)
         - (if token == t.quoteToken then FillDust(t.lots, o.side, b, pl.fills) else 0)
         + (if o.side == Buy then
              (if token == t.quoteToken then tr.quote + tr.fee else 0) - (if token == t.baseToken then tr.base else 0)
            else
              (if token == t.baseToken then tr.base else 0) - (if token == t.quoteToken then tr.quote - tr.fee else 0))
  {
    TradeEffect(z, t, mid, o.side, accounts, pl.fills, referrer, fees, taker, token);
    FeeSplitIsTotal(z, t, mid, o.side, accounts, pl.fills, referrer, fees);
    NewBookClaim(t, b, taker, o, pl, token);
    hide SettleTrade, EngineOk, NewBook, BookClaim, TotalBalance;
  }

  // ---------- New orders ----------

  /** The pieces of a successful order. */
  ghost predicate OrderParts(z: Sizes, s: State, caller: AccountId, mid: MarketId, p: NewOrderParams, pl: Placement, now: nat,
                             o: EngineOrder, tr: Trade, taker: VAccount, after: State)
  {
    && ValidOrder(p)
    && mid in s.markets
    && caller in s.accounts
    && var m := s.markets[mid];
    && o.sequence == s.prevSequence + 1
    && Prepare(m.terms, m.book, p, o.sequence) == Ok(o)
    && o.side == p.side
    && EngineOk(m.terms.lots, m.book, caller, o, pl)
    && SettleTrade(z, m.terms, mid, o.side, s.accounts, pl.fills, p.referrer, m.feesAccrued) == Ok(tr)
    && SettleTaker(m.terms, mid, p, o, pl, tr, s.accounts[caller], now) == Ok(taker)
    && Covered(z, taker)
    && after == s.(accounts := tr.accounts[caller := taker],
                   markets := s.markets[mid := m.(book := NewBook(m.book, caller, o, pl), feesAccrued := tr.fees)],
                   prevSequence := s.prevSequence + 1)
  }

  lemma OrderUnfolds(z: Sizes, s: State, caller: AccountId, mid: MarketId, p: NewOrderParams, placed: Option<Placement>, now: nat)
      returns (o: EngineOrder, tr: Trade, taker: VAccount)
    requires NewOrder(z, s, caller, mid, p, placed, now).Ok?
    ensures placed.Some?
    ensures OrderParts(z, s, caller, mid, p, placed.value, now, o, tr, taker, NewOrder(z, s, caller, mid, p, placed, now).value)
  {
    hide Covered, EngineOk, SettleTrade, SettleTaker, NewBook;
    var m := s.markets[mid];
    o := Prepare(m.terms, m.book, p, s.prevSequence + 1).value;
    PreparedSequence(m.terms, m.book, p, s.prevSequence + 1);
    PreparedOrder(m.terms, m.book, p, o);
    tr := SettleTrade(z, m.terms, mid, o.side, s.accounts, placed.value.fills, p.referrer, m.feesAccrued).value;
    taker := SettleTaker(m.terms, mid, p, o, placed.value, tr, s.accounts[caller], now).value;
  }

  /**
   * Where the gap of a token grows when an order is placed: the part of a bid's lock that no refund
   * returns, the dust of filled bids, and the rebate of a taker that names itself as referrer.
   */
  function OrderSurplus(t: Terms, b: Book, caller: AccountId, p: NewOrderParams, o: EngineOrder, pl: Placement, tr: Trade, token: Token): int {
    (if token == EscrowToken(t, p.side) then LockedFor(t, p.side, p.limitPrice, pl.openQty) - PostedValue(t.lots, o, pl) else 0)
    + (if token == t.quoteToken then
         FillDust(t.lots, o.side, b, pl.fills) + (if p.referrer == Some(caller) then tr.referral else 0)
       else 0)
  }

  /** An order moves value, and adds exactly the named surplus to the gap. */
  lemma OrderConserves(z: Sizes, s: State, caller: AccountId, mid: MarketId, p: NewOrderParams, pl: Placement, now: nat,
                       o: EngineOrder, tr: Trade, taker: VAccount, after: State, token: Token)
    requires OrderParts(z, s, caller, mid, p, pl, now, o, tr, taker, after)
    ensures Gap(after, token)
         == Gap(s, token) + OrderSurplus(s.markets[mid].terms, s.markets[mid].book, caller, p, o, pl, tr, token)
  {
    hide SettleTrade, SettleTaker, NewBook, BookClaim, TotalBalance, TotalClaims, Prepare, Covered, LockedFor,
         PostedValue, FillDust, Earned, ListPosted, ValidOrder, TotalSends;
    var m := s.markets[mid];
    var t := m.terms;
    TradeEffect(z, t, mid, o.side, s.accounts, pl.fills, p.referrer, m.feesAccrued, caller, token);
    TradeBalances(z, t, mid, s.accounts, m.book, caller, o, pl, p.referrer, m.feesAccrued, token);
    TakerEarnsNothing(t, caller, o.side, o.limitPrice, Resting(m.book, Opposite(o.side)), pl.fills, token);
    TakerEffect(t, m.book, mid, caller, p, o, pl, tr, s.accounts[caller], now, token);
    PreparedOrder(t, m.book, p, o);
    TotalBalanceUpdate(tr.accounts, caller, taker, token);
    TotalClaimsUpdate(s.markets, mid, after.markets[mid], token);
  }

  /** The surplus of an order is never negative. */
  lemma OrderSurplusSign(t: Terms, b: Book, caller: AccountId, p: NewOrderParams, o: EngineOrder, pl: Placement, tr: Trade, token: Token)
    requires ValidOrder(p)
    requires Prepare(t, b, p, o.sequence) == Ok(o)
    requires EngineOk(t.lots, b, caller, o, pl)
    ensures OrderSurplus(t, b, caller, p, o, pl, tr, token) >= 0
    ensures (&& EvenLots(t.lots)
             && (p.side == Buy && p.limitPrice.Some? ==> ToLots(p.limitPrice.value, t.lots.quote) * t.lots.quote == p.limitPrice.value)
             && p.referrer != Some(caller))
      ==> OrderSurplus(t, b, caller, p, o, pl, tr, token) == 0
  {
    PreparedOrder(t, b, p, o);
    FillDustIsSmall(t, b, caller, o, pl);
    if pl.openQty > 0 && p.side == Buy {
      LotsWithin(p.limitPrice.value, t.lots.quote);
      LockCoversValue(t.lots, p.limitPrice.value, o.limitPrice.value, pl.openQty);
    }
  }

  // ---------- Swaps ----------

  /** The gap not counting the amount a swap has in hand. */
  ghost function GapBeside(s: State, token: Token, carried: Token, amount: nat): int {
    Gap(s, token) - (if token == carried then amount else 0)
  }

  ghost predicate HopParts(z: Sizes, s: State, signer: AccountId, token: Token, amount: nat, h: Hop, o: EngineOrder, tr: Trade, c: Carried) {
    && h.market in s.markets
    && h.placed.Some?
    && var m := s.markets[h.market];
    && var pl := h.placed.value;
    && SwapOrder(m.terms, h.side, amount, s.prevSequence + 1) == Ok(o)
    && o.side == h.side
    && token == InputToken(m.terms, h.side)
    && EngineOk(m.terms.lots, m.book, signer, o, pl)
    && SettleTrade(z, m.terms, h.market, h.side, s.accounts, pl.fills, h.referrer, m.feesAccrued) == Ok(tr)
    && SwapOutput(h.side, tr) == Ok(c.amount)
    && SwapRefund(h.side, amount, tr) == Ok(c.refund)
    && c.token == OutputToken(m.terms, h.side)
    && (h.minOutput.Some? ==> h.minOutput.value <= c.amount)
    && c.state == s.(accounts := tr.accounts,
                     markets := s.markets[h.market := m.(book := NewBook(m.book, signer, o, pl), feesAccrued := tr.fees)],
                     prevSequence := s.prevSequence + 1)
  }

  lemma HopUnfolds(z: Sizes, s: State, signer: AccountId, token: Token, amount: nat, h: Hop)
      returns (o: EngineOrder, tr: Trade)
    requires SwapHop(z, s, signer, token, amount, h).Ok?
    ensures HopParts(z, s, signer, token, amount, h, o, tr, SwapHop(z, s, signer, token, amount, h).value)
  {
    hide EngineOk, SettleTrade, NewBook;
    var m := s.markets[h.market];
    o := SwapOrder(m.terms, h.side, amount, s.prevSequence + 1).value;
    tr := SettleTrade(z, m.terms, h.market, h.side, s.accounts, h.placed.value.fills, h.referrer, m.feesAccrued).value;
  }

  lemma HopAmounts(side: Side, amount: nat, tr: Trade)
    requires SwapOutput(side, tr).Ok? && SwapRefund(side, amount, tr).Ok?
    ensures var output, refund := SwapOutput(side, tr).value, SwapRefund(side, amount, tr).value;
      if side == Buy then output == tr.base && amount == tr.quote + tr.fee + refund
      else output + tr.fee == tr.quote && amount == tr.base + refund
  {
  }

  /** What a hop leaves with the contract: the input it did not use, and the dust of filled bids. */
  ghost function HopSurplus(z: Sizes, s: State, signer: AccountId, token: Token, amount: nat, h: Hop, t: Token): int {
    match SwapHop(z, s, signer, token, amount, h)
    case Err(_) => 0
    case Ok(c) => (if t == token then c.refund else 0) + HopDust(s, h, t)
  }

  function HopDust(s: State, h: Hop, t: Token): int {
    if h.market in s.markets && h.placed.Some? && t == s.markets[h.market].terms.quoteToken then
      FillDust(s.markets[h.market].terms.lots, h.side, s.markets[h.market].book, h.placed.value.fills)
    else 0
  }

  ghost function ChainSurplus(z: Sizes, s: State, signer: AccountId, token: Token, amount: nat, hops: seq<Hop>, t: Token): int {
    if hops == [] then 0
    else
      ChainSurplus(z, s, signer, token, amount, hops[..|hops| - 1], t)
      + match SwapChain(z, s, signer, token, amount, hops[..|hops| - 1])
        case Err(_) => 0
        case Ok(c) => HopSurplus(z, c.state, signer, c.token, c.amount, hops[|hops| - 1], t)
  }

  /** Every hop uses its whole input and leaves no dust. */
  ghost predicate ChainIsTight(z: Sizes, s: State, signer: AccountId, token: Token, amount: nat, hops: seq<Hop>) {
    hops == []
    || (&& ChainIsTight(z, s, signer, token, amount, hops[..|hops| - 1])
        && match SwapChain(z, s, signer, token, amount, hops[..|hops| - 1])
           case Err(_) => true
           case Ok(c) => HopIsTight(z, c.state, signer, c.token, c.amount, hops[|hops| - 1]))
  }

  ghost predicate HopIsTight(z: Sizes, s: State, signer: AccountId, token: Token, amount: nat, h: Hop) {
    match SwapHop(z, s, signer, token, amount, h)
    case Err(_) => true
    case Ok(c) => c.refund == 0 && (h.market in s.markets ==> HopDust(s, h, s.markets[h.market].terms.quoteToken) == 0)
  }

  lemma HopSurplusSign(z: Sizes, s: State, signer: AccountId, token: Token, amount: nat, h: Hop, t: Token)
    requires SwapHop(z, s, signer, token, amount, h).Ok?
    ensures HopSurplus(z, s, signer, token, amount, h, t) >= 0
    ensures HopIsTight(z, s, signer, token, amount, h) ==> HopSurplus(z, s, signer, token, amount, h, t) == 0
  {
    hide SwapHop, FillDust, EngineOk, SettleTrade;
    var o, tr := HopUnfolds(z, s, signer, token, amount, h);
    FillDustIsSmall(s.markets[h.market].terms, s.markets[h.market].book, signer, o, h.placed.value);
  }

  /** A hop that is not tight leaves something with the contract, in the token it names. */
  lemma LooseHopGains(z: Sizes, s: State, signer: AccountId, token: Token, amount: nat, h: Hop) returns (t: Token)
    requires SwapHop(z, s, signer, token, amount, h).Ok?
    requires !HopIsTight(z, s, signer, token, amount, h)
    ensures HopSurplus(z, s, signer, token, amount, h, t) > 0
  {
    hide SwapHop, FillDust, EngineOk, SettleTrade;
    var o, tr := HopUnfolds(z, s, signer, token, amount, h);
    var m := s.markets[h.market];
    FillDustIsSmall(m.terms, m.book, signer, o, h.placed.value);
    t := if SwapHop(z, s, signer, token, amount, h).value.refund > 0 then token else m.terms.quoteToken;
  }

  /** A hop adds its dropped refund and the dust of filled bids to the gap, and nothing else. */
  lemma HopConserves(z: Sizes, s: State, signer: AccountId, token: Token, amount: nat, h: Hop, o: EngineOrder, tr: Trade, c: Carried, t: Token)
    requires HopParts(z, s, signer, token, amount, h, o, tr, c)
    ensures GapBeside(c.state, t, c.token, c.amount)
         == GapBeside(s, t, token, amount) + (if t == token then c.refund else 0)
            + (if t == s.markets[h.market].terms.quoteToken
               then FillDust(s.markets[h.market].terms.lots, h.side, s.markets[h.market].book, h.placed.value.fills) else 0)
  {
    hide SwapOrder, EngineOk, SettleTrade, NewBook, SwapOutput, SwapRefund;
    var m, pl := s.markets[h.market], h.placed.value;
    SwapOrderShape(m.terms, h.side, amount, s.prevSequence + 1);
    HopAmounts(h.side, amount, tr);
    TradeBalances(z, m.terms, h.market, s.accounts, m.book, signer, o, pl, h.referrer, m.feesAccrued, t);
    TotalClaimsUpdate(s.markets, h.market, c.state.markets[h.market], t);
    assert PostedValue(m.terms.lots, o, pl) == 0;
    hide BookClaim, TotalBalance, TotalClaims, FillDust, TotalSends, PostedValue;
  }

  lemma HopMovesGap(z: Sizes, s: State, signer: AccountId, token: Token, amount: nat, h: Hop, t: Token)
    requires SwapHop(z, s, signer, token, amount, h).Ok?
    ensures var c := SwapHop(z, s, signer, token, amount, h).value;
      GapBeside(c.state, t, c.token, c.amount) == GapBeside(s, t, token, amount) + HopSurplus(z, s, signer, token, amount, h, t)
  {
    hide SwapHop, FillDust, EngineOk, SettleTrade, GapBeside;
    var o, tr := HopUnfolds(z, s, signer, token, amount, h);
    HopConserves(z, s, signer, token, amount, h, o, tr, SwapHop(z, s, signer, token, amount, h).value, t);
  }

  /**
   * Over a chain of any length every credit is backed: the gap beside the carried amount grows by exactly
   * what the hops leave behind, which is never negative.
   */
  lemma {:induction false} ChainConserves(z: Sizes, s: State, signer: AccountId, token: Token, amount: nat, hops: seq<Hop>, t: Token)
    requires SwapChain(z, s, signer, token, amount, hops).Ok?
    ensures var c := SwapChain(z, s, signer, token, amount, hops).value;
      GapBeside(c.state, t, c.token, c.amount)
      == GapBeside(s, t, token, amount) + ChainSurplus(z, s, signer, token, amount, hops, t)
    ensures ChainSurplus(z, s, signer, token, amount, hops, t) >= 0
  {
    hide SwapHop, HopSurplus, GapBeside;
    if hops != [] {
      var n := |hops| - 1;
      var c := SwapChain(z, s, signer, token, amount, hops[..n]).value;
      ChainConserves(z, s, signer, token, amount, hops[..n], t);
      HopMovesGap(z, c.state, signer, c.token, c.amount, hops[n], t);
      HopSurplusSign(z, c.state, signer, c.token, c.amount, hops[n], t);
    } else {
      assert SwapChain(z, s, signer, token, amount, hops).value == Carried(s, token, amount, 0);
    }
  }

  lemma {:induction false} ChainKeepsSends(z: Sizes, s: State, signer: AccountId, token: Token, amount: nat, hops: seq<Hop>)
    requires SwapChain(z, s, signer, token, amount, hops).Ok?
    ensures SwapChain(z, s, signer, token, amount, hops).value.state.sends == s.sends
    ensures SwapChain(z, s, signer, token, amount, hops).value.state.prevSequence == s.prevSequence + |hops|
  {
    hide SwapHop;
    if hops != [] {
      var n := |hops| - 1;
      var c := SwapChain(z, s, signer, token, amount, hops[..n]).value;
      ChainKeepsSends(z, s, signer, token, amount, hops[..n]);
      var o, tr := HopUnfolds(z, c.state, signer, c.token, c.amount, hops[n]);
    }
  }

  lemma {:induction false} TightChainGainsNothing(z: Sizes, s: State, signer: AccountId, token: Token, amount: nat, hops: seq<Hop>, t: Token)
    requires SwapChain(z, s, signer, token, amount, hops).Ok?
    requires ChainIsTight(z, s, signer, token, amount, hops)
    ensures ChainSurplus(z, s, signer, token, amount, hops, t) == 0
  {
    hide SwapHop, HopSurplus, HopIsTight;
    if hops != [] {
      var n := |hops| - 1;
      var c := SwapChain(z, s, signer, token, amount, hops[..n]).value;
      TightChainGainsNothing(z, s, signer, token, amount, hops[..n], t);
      HopSurplusSign(z, c.state, signer, c.token, c.amount, hops[n], t);
    }
  }

  lemma {:induction false} LooseChainGains(z: Sizes, s: State, signer: AccountId, token: Token, amount: nat, hops: seq<Hop>) returns (t: Token)
    requires SwapChain(z, s, signer, token, amount, hops).Ok?
    requires !ChainIsTight(z, s, signer, token, amount, hops)
    ensures ChainSurplus(z, s, signer, token, amount, hops, t) > 0
  {
    hide SwapHop, HopSurplus, HopIsTight;
    var n := |hops| - 1;
    var c := SwapChain(z, s, signer, token, amount, hops[..n]).value;
    if !ChainIsTight(z, s, signer, token, amount, hops[..n]) {
      t := LooseChainGains(z, s, signer, token, amount, hops[..n]);
      HopSurplusSign(z, c.state, signer, c.token, c.amount, hops[n], t);
    } else {
      t := LooseHopGains(z, c.state, signer, c.token, c.amount, hops[n]);
      ChainConserves(z, s, signer, token, amount, hops[..n], t);
    }
  }

  /** A chain leaves nothing with the contract exactly when every hop uses its whole input without dust. */
  lemma ChainGainsNothingExactly(z: Sizes, s: State, signer: AccountId, token: Token, amount: nat, hops: seq<Hop>)
    requires SwapChain(z, s, signer, token, amount, hops).Ok?
    ensures ChainIsTight(z, s, signer, token, amount, hops)
       <==> forall t :: ChainSurplus(z, s, signer, token, amount, hops, t) == 0
  {
    hide SwapChain, ChainSurplus, ChainIsTight;
    if ChainIsTight(z, s, signer, token, amount, hops) {
      forall t
        ensures ChainSurplus(z, s, signer, token, amount, hops, t) == 0
      {
        TightChainGainsNothing(z, s, signer, token, amount, hops, t);
      }
    } else {
      var t := LooseChainGains(z, s, signer, token, amount, hops);
    }
  }

  /** A hop that fills nothing drops all of its input. */
  lemma UnfilledHopDropsInput(z: Sizes, s: State, signer: AccountId, token: Token, amount: nat, h: Hop)
    requires SwapHop(z, s, signer, token, amount, h).Ok?
    requires h.placed.Some? && h.placed.value.fills == []
    ensures var c := SwapHop(z, s, signer, token, amount, h).value;
      c.amount == 0 && c.refund == amount
  {
    hide SwapHop, EngineOk, SwapOrder;
    var o, tr := HopUnfolds(z, s, signer, token, amount, h);
    var m := s.markets[h.market];
    FeeSplitIsTotal(z, m.terms, h.market, h.side, s.accounts, [], h.referrer, m.feesAccrued);
  }

  /** What a completed swap leaves behind, less the yoctoNEAR it attaches to a payout in another token. */
  ghost function SwapSurplus(z: Sizes, s: State, signer: AccountId, token: Token, amount: nat, hops: seq<Hop>, t: Token): int {
    match SwapChain(z, AddHeld(s, token, amount), signer, token, amount, hops)
    case Err(_) => 0
    case Ok(c) =>
      ChainSurplus(z, AddHeld(s, token, amount), signer, token, amount, hops, t)
      - (if t == NativeNear && c.amount > 0 then Attached(c.token) else 0)
  }

  lemma SwapsConserve(z: Sizes, s: State, signer: AccountId, sender: AccountId, token: Token, amount: nat, hops: seq<Hop>, t: Token)
    requires ExecuteSwaps(z, s, signer, sender, token, amount, hops).Ok?
    ensures Gap(ExecuteSwaps(z, s, signer, sender, token, amount, hops).value, t)
         == Gap(s, t) + SwapSurplus(z, s, signer, token, amount, hops, t)
  {
    hide SwapChain, ChainSurplus, TotalBalance, TotalClaims, TotalSends;
    var start := AddHeld(s, token, amount);
    var c := SwapChain(z, start, signer, token, amount, hops).value;
    ChainConserves(z, start, signer, token, amount, hops, t);
    TotalSendsAppend(c.state.sends, Send(c.token, sender, c.amount, InFlight), t);
  }

  // ---------- Cancels ----------

  lemma TakeOrderClaim(t: Terms, b: Book, id: OrderId, token: Token)
    requires TakeOrder(b, id).Some?
    ensures var (c, p) := TakeOrder(b, id).value;
      BookClaim(t, c, token) == BookClaim(t, b, token)
        - (if token == EscrowToken(t, p.side) then Value(t.lots, p.side, p.order.price, p.order.openQty) else 0)
  {
    var (c, p) := TakeOrder(b, id).value;
    EscrowReduce(t.lots, p.side, Resting(b, p.side), id, p.order.openQty);
    ValueOfNothing(t.lots, p.side, p.order.price);
  }

  function PendingValue(t: Terms, pending: seq<Pending>, token: Token): nat {
    if pending == [] then 0
    else
      var p := pending[|pending| - 1];
      PendingValue(t, pending[..|pending| - 1], token)
      + (if token == EscrowToken(t, p.side) then Value(t.lots, p.side, p.order.price, p.order.openQty) else 0)
  }

  lemma {:induction false} TakeOrdersClaim(t: Terms, b: Book, ids: seq<OrderId>, token: Token)
    requires TakeOrders(b, ids).Ok?
    ensures var (c, pending) := TakeOrders(b, ids).value;
      BookClaim(t, c, token) == BookClaim(t, b, token) - PendingValue(t, pending, token)
  {
    if ids != [] {
      var (c, pending) := TakeOrders(b, ids[..|ids| - 1]).value;
      var (d, p) := TakeOrder(c, ids[|ids| - 1]).value;
      TakeOrdersClaim(t, b, ids[..|ids| - 1], token);
      TakeOrderClaim(t, c, ids[|ids| - 1], token);
      assert (pending + [p])[..|pending|] == pending;
    }
  }

  lemma RefundOneEffect(t: Terms, mid: MarketId, owner: AccountId, a: VAccount, p: Pending, token: Token)
    requires RefundOne(t, mid, owner, a, p).Ok?
    ensures var b := RefundOne(t, mid, owner, a, p).value;
      && Balance(b, token) == Balance(a, token)
           + (if token == EscrowToken(t, p.side) then Value(t.lots, p.side, p.order.price, p.order.openQty) else 0)
      && b.openOrders == RemoveOrderInfo(a, mid, p.order.id).openOrders
      && b.storageBalance == a.storageBalance
  {
    hide QuoteValue, UnitValue;
  }

  lemma {:induction false} RefundsEffect(t: Terms, mid: MarketId, owner: AccountId, a: VAccount, pending: seq<Pending>, token: Token)
    requires ProcessRefunds(t, mid, owner, a, pending).Ok?
    ensures var b := ProcessRefunds(t, mid, owner, a, pending).value;
      && Balance(b, token) == Balance(a, token) + PendingValue(t, pending, token)
      && b.storageBalance == a.storageBalance
  {
    hide RefundOne, Value;
    if pending != [] {
      var n := |pending| - 1;
      RefundsEffect(t, mid, owner, a, pending[..n], token);
      RefundOneEffect(t, mid, owner, ProcessRefunds(t, mid, owner, a, pending[..n]).value, pending[n], token);
    }
  }

  lemma CancelConserves(z: Sizes, s: State, account: AccountId, mid: MarketId, id: OrderId, token: Token)
    requires CancelOrder(z, s, account, mid, id).Ok?
    ensures Gap(CancelOrder(z, s, account, mid, id).value, token) == Gap(s, token)
  {
    hide Covered, ProcessRefunds, TotalBalance, TotalClaims, TotalSends, BookClaim, Value, TakeOrder;
    var after := CancelOrder(z, s, account, mid, id).value;
    var m := s.markets[mid];
    var (book, pending) := TakeOrder(m.book, id).value;
    var unlisted := RemoveOrderInfo(s.accounts[account], mid, id);
    RefundsEffect(m.terms, mid, account, unlisted, [pending], token);
    TakeOrderClaim(m.terms, m.book, id, token);
    assert PendingValue(m.terms, [pending][..0], token) == 0;
    TotalBalanceUpdate(s.accounts, account, after.accounts[account], token);
    TotalClaimsUpdate(s.markets, mid, after.markets[mid], token);
    assert Balance(unlisted, token) == Balance(s.accounts[account], token);
  }

  lemma CancelAllConserves(z: Sizes, s: State, account: AccountId, mid: MarketId, ids: seq<OrderId>, token: Token)
    requires CancelAll(z, s, account, mid, ids).Ok?
    ensures Gap(CancelAll(z, s, account, mid, ids).value, token) == Gap(s, token)
  {
    hide Covered, ProcessRefunds, Enumerates, TakeOrders, TotalBalance, TotalClaims, TotalSends, BookClaim, PendingValue;
    var after := CancelAll(z, s, account, mid, ids).value;
    var m := s.markets[mid];
    var (book, pending) := TakeOrders(m.book, ids).value;
    var unlisted := RemoveAllOrderInfos(s.accounts[account], mid);
    RefundsEffect(m.terms, mid, account, unlisted, pending, token);
    TakeOrdersClaim(m.terms, m.book, ids, token);
    TotalBalanceUpdate(s.accounts, account, after.accounts[account], token);
    TotalClaimsUpdate(s.markets, mid, after.markets[mid], token);
    assert Balance(unlisted, token) == Balance(s.accounts[account], token);
  }

  lemma {:induction false} CancelEachConserves(z: Sizes, s: State, mid: MarketId, orders: seq<Order>, token: Token)
    requires CancelEach(z, s, mid, orders).Ok?
    ensures Gap(CancelEach(z, s, mid, orders).value, token) == Gap(s, token)
  {
    hide CancelOrder, Gap;
    if orders != [] {
      var n := |orders| - 1;
      CancelEachConserves(z, s, mid, orders[..n], token);
      CancelConserves(z, CancelEach(z, s, mid, orders[..n]).value, orders[n].owner, mid, orders[n].id, token);
    }
  }

  // ---------- Deposits, withdrawals, transfers ----------

  lemma InternalDepositEffect(z: Sizes, accounts: Accounts, id: AccountId, t: Token, amount: nat, token: Token)
    requires InternalDeposit(z, accounts, id, t, amount).Ok?
    ensures id in accounts
    ensures var after := InternalDeposit(z, accounts, id, t, amount).value;
      && TotalBalance(after, token) == TotalBalance(accounts, token) + (if token == t then amount else 0)
      && (forall a :: BalanceAt(after, a, token) == BalanceAt(accounts, a, token) + (if a == id && token == t then amount else 0))
      && id in after && Covered(z, after[id])
      && after == accounts[id := after[id]]
      && after[id].openOrders == accounts[id].openOrders
      && after[id].storageBalance == accounts[id].storageBalance
  {
    hide Covered;
    var a := Deposit(accounts[id], t, amount).value;
    DepositEffect(accounts[id], t, amount, token);
    TotalBalanceUpdate(accounts, id, a, token);
  }

  lemma DepositConserves(z: Sizes, s: State, account: AccountId, t: Token, amount: nat, token: Token)
    requires DepositTokens(z, s, account, t, amount).Ok?
    ensures Gap(DepositTokens(z, s, account, t, amount).value, token) == Gap(s, token)
  {
    hide InternalDeposit;
    InternalDepositEffect(z, s.accounts, account, t, amount, token);
  }

  /** The yoctoNEAR that comes with a withdrawal travels on with the transfer, except with one of NEAR. */
  lemma WithdrawConserves(z: Sizes, s: State, caller: AccountId, t: Token, amount: nat, token: Token)
    requires WithdrawTokens(z, s, caller, t, amount).Ok?
    ensures Gap(WithdrawTokens(z, s, caller, t, amount).value, token)
         == Gap(s, token) + (if token == NativeNear && t == NativeNear then 1 else 0)
  {
    hide Covered;
    var a := Withdraw(s.accounts[caller], t, amount).value;
    WithdrawEffect(s.accounts[caller], t, amount, token);
    TotalBalanceUpdate(s.accounts, caller, a, token);
    TotalSendsAppend(s.sends, Send(t, caller, amount, InFlight), token);
  }

  /** A bounced transfer returns its yoctoNEAR. */
  lemma TransferConserves(s: State, i: nat, success: bool, token: Token)
    requires TransferSettles(s, i, success).Ok?
    ensures i < |s.sends|
    ensures Gap(TransferSettles(s, i, success).value, token)
         == Gap(s, token) + (if token == NativeNear && !success then Attached(s.sends[i].token) else 0)
  {
    var after := TransferSettles(s, i, success).value;
    TotalSendsUpdate(s.sends, i, after.sends[i], token);
  }

  /** An account is registered, does not overflow and has the storage to hold so much more of a token. */
  ghost predicate CanHold(z: Sizes, accounts: Accounts, id: AccountId, t: Token, amount: nat) {
    && id in accounts
    && var a := accounts[id];
       && Balance(a, t) + amount < TWO_128
       && Covered(z, a.(balances := a.balances[t := Balance(a, t) + amount]))
  }

  lemma DepositSucceedsExactly(z: Sizes, accounts: Accounts, id: AccountId, t: Token, amount: nat)
    ensures InternalDeposit(z, accounts, id, t, amount).Ok? <==> CanHold(z, accounts, id, t, amount)
  {
    hide Covered;
  }

  /** A bounced amount that nobody can hold stays with the contract, owed to nobody. */
  ghost function Stranded(z: Sizes, s: State, i: nat, token: Token): nat {
    if i < |s.sends| && s.sends[i].status.Bounced? && s.sends[i].token == token
       && !CanHold(z, s.accounts, CreditTarget(s, s.sends[i].receiver), token, s.sends[i].amount)
    then s.sends[i].amount else 0
  }

  lemma CallbackConserves(z: Sizes, s: State, i: nat, token: Token)
    requires WithdrawCallback(z, s, i).Ok?
    ensures i < |s.sends|
    ensures Gap(WithdrawCallback(z, s, i).value, token) == Gap(s, token) + Stranded(z, s, i, token)
  {
    hide InternalDeposit, CanHold, TotalBalance, TotalClaims, TotalSends, BalanceAt, Covered;
    var after := WithdrawCallback(z, s, i).value;
    var send := s.sends[i];
    var target := CreditTarget(s, send.receiver);
    TotalSendsUpdate(s.sends, i, after.sends[i], token);
    DepositSucceedsExactly(z, s.accounts, target, send.token, send.amount);
    if send.status.Bounced? && InternalDeposit(z, s.accounts, target, send.token, send.amount).Ok? {
      InternalDepositEffect(z, s.accounts, target, send.token, send.amount, token);
    }
  }

  lemma UnregisterConserves(s: State, caller: AccountId, token: Token)
    requires StorageUnregister(s, caller).Ok?
    ensures Gap(StorageUnregister(s, caller).value, token) == Gap(s, token) + (if token == NativeNear then 1 else 0)
  {
    TotalBalanceRemove(s.accounts, caller, token);
  }

  lemma StorageDepositConserves(z: Sizes, s: State, account: AccountId, only: bool, amount: nat, token: Token)
    requires StorageDeposit(z, s, account, only, amount).Ok?
    ensures Gap(StorageDeposit(z, s, account, only, amount).value, token) == Gap(s, token)
  {
    hide Covered, Locked;
    var after := StorageDeposit(z, s, account, only, amount).value;
    if after != s {
      TotalBalanceUpdate(s.accounts, account, after.accounts[account], token);
    }
  }

  lemma StorageWithdrawConserves(z: Sizes, s: State, caller: AccountId, amount: Option<nat>, token: Token)
    requires StorageWithdraw(z, s, caller, amount).Ok?
    ensures Gap(StorageWithdraw(z, s, caller, amount).value, token) == Gap(s, token) + (if token == NativeNear then 1 else 0)
  {
    hide Covered, StorageAvailable;
    var after := StorageWithdraw(z, s, caller, amount).value;
    if after != s {
      TotalBalanceUpdate(s.accounts, caller, after.accounts[caller], token);
    }
  }

  lemma CreateMarketConserves(s: State, mid: MarketId, t: MarketTerms, decimals: nat, token: Token)
    requires CreateMarket(s, mid, t, decimals).Ok?
    ensures Gap(CreateMarket(s, mid, t, decimals).value, token) == Gap(s, token)
  {
    TotalClaimsUpdate(s.markets, mid, VMarket(t, Trading, EMPTY_BOOK, 0), token);
  }

  lemma SetMarketStateConserves(s: State, caller: AccountId, mid: MarketId, state: MarketState, token: Token)
    requires SetMarketState(s, caller, mid, state).Ok?
    ensures Gap(SetMarketState(s, caller, mid, state).value, token) == Gap(s, token)
  {
    TotalClaimsUpdate(s.markets, mid, s.markets[mid].(state := state), token);
  }
}

/**
 * Concrete runs from deployment, with storage that costs something, in which value goes astray: a rebate
 * that is overwritten, a yoctoNEAR that a payout takes from the others, an amount that nobody can be
 * credited with, and a swap that keeps its input.
 */
module Examples {
  import opened Arithmetic
  import opened Exchange
  import opened Fees
  import opened Ledger
  import opened MatchingEngine
  import opened OrderBook
  import opened Orders
  import opened Outcomes
  import opened Protocols
  import opened Reachability
  import opened Settlement
  import opened Solvency
  import opened StoredAccount
  import opened StoredMarket
  import opened Sums
  import opened Types

  // ---------- A market, a maker and a taker ----------

  const OWNER := AccountId("owner")
  const MAKER := AccountId("maker")
  const TAKER := AccountId("taker")
  const BASE := FungibleToken(AccountId("base"))
  const QUOTE := FungibleToken(AccountId("quote"))
  const MARKET := MarketId(0)
  const TERMS: Terms := MarketTerms(BASE, QUOTE, Lots(1, 1, 1), 10, 0, 20, 0, 0)

  /** A byte costs one, an entry takes 24 bytes, and every account deposits a thousand. */
  const SIZES := Sizes(1, 4, 4, _ => 24)
  const NEW_ACCOUNT := VAccount(map[], map[], 1000)

  const SELL := NewOrderParams(Some(100), None, 100, Sell, Limit, None)
  const SETUP: seq<Action> := [
    ActCreateMarket(MARKET, TERMS, 0),
    ActStorageDeposit(MAKER, false, 1000),
    ActStorageDeposit(TAKER, false, 1000),
    ActDeposit(MAKER, BASE, 100),
    ActDeposit(MAKER, NativeNear, 5),
    ActDeposit(TAKER, QUOTE, 20_000),
    ActNewOrder(MAKER, MARKET, SELL, Some(Placement(OrderId(1), [], 100, 0)), 0)]

  const OPEN: State := Deployed(OWNER).(markets := map[MARKET := VMarket(TERMS, Trading, EMPTY_BOOK, 0)])
  const JOINED: State := OPEN.(accounts := map[MAKER := NEW_ACCOUNT], storageHeld := 1000)
  const BOTH: State := JOINED.(accounts := map[MAKER := NEW_ACCOUNT][TAKER := NEW_ACCOUNT], storageHeld := 2000)
  const WITH_BASE := NEW_ACCOUNT.(balances := map[BASE := 100])
  const WITH_NEAR := NEW_ACCOUNT.(balances := map[BASE := 100][NativeNear := 5])
  const BUYER := NEW_ACCOUNT.(balances := map[QUOTE := 20_000])
  const BASE_IN: State := AddHeld(BOTH.(accounts := BOTH.accounts[MAKER := WITH_BASE]), BASE, 100)
  const NEAR_IN: State := AddHeld(BASE_IN.(accounts := BASE_IN.accounts[MAKER := WITH_NEAR]), NativeNear, 5)
  const QUOTE_IN: State := AddHeld(NEAR_IN.(accounts := NEAR_IN.accounts[TAKER := BUYER]), QUOTE, 20_000)

  const ASK := Order(OrderId(1), MAKER, 100, 100)
  const SELLER := VAccount(map[BASE := 100][NativeNear := 5][QUOTE := 0] - {BASE}, map[MARKET := map[OrderId(1) := OrderInfo(100, 0)]], 1000)
  const POSTED: State := QUOTE_IN.(
    accounts := QUOTE_IN.accounts[MAKER := SELLER],
    markets := QUOTE_IN.markets[MARKET := VMarket(TERMS, Trading, Book([], [ASK]), 0)],
    prevSequence := 1)

  lemma Names()
    ensures MAKER != TAKER && OWNER != MAKER && OWNER != TAKER && BASE != QUOTE && BASE != NativeNear && QUOTE != NativeNear
  {
    assert "maker"[0] != "taker"[0] && "owner"[0] != "maker"[0] && "owner"[0] != "taker"[0];
    assert "base"[0] != "quote"[0];
  }

  /** A thousand covers three balances and one order. */
  lemma RoomyIsCovered(a: VAccount)
    requires |a.balances| <= 3 && |a.openOrders| <= 1
    requires forall mid :: mid in a.openOrders ==> |a.openOrders[mid]| <= 1
    requires a.storageBalance >= 1000
    ensures Covered(SIZES, a)
  {
    SumAtMost(EntrySizes(SIZES, a.balances), 24);
    assert EntrySizes(SIZES, a.balances).Keys == a.balances.Keys;
    assert |EntrySizes(SIZES, a.balances)| == |a.balances|;
    SumAtMost(OrderCounts(a.openOrders), 1);
    assert OrderCounts(a.openOrders).Keys == a.openOrders.Keys;
    assert |OrderCounts(a.openOrders)| == |a.openOrders|;
    assert BorshSize(SIZES, a) <= 1000;
  }

  lemma Registers(s: State, id: AccountId)
    requires s.mode.Active? && id !in s.accounts
    ensures Apply(SIZES, s, ActStorageDeposit(id, false, 1000))
         == Ok(s.(accounts := s.accounts[id := NEW_ACCOUNT], storageHeld := s.storageHeld + 1000))
  {
    RoomyIsCovered(NEW_ACCOUNT);
    RoomyIsCovered(EMPTY_ACCOUNT.(storageBalance := 1000));
    assert Locked(SIZES, EMPTY_ACCOUNT) <= 1000 by {
      assert BorshSize(SIZES, EMPTY_ACCOUNT) == BorshSize(SIZES, NEW_ACCOUNT);
    }
    hide Covered, Locked;
  }

  lemma RoomForOneMore(a: VAccount, t: Token, amount: Amount)
    requires |a.balances| <= 2 && a.openOrders == map[] && a.storageBalance == 1000
    ensures Covered(SIZES, a.(balances := a.balances[t := amount]))
  {
    var b := a.(balances := a.balances[t := amount]);
    assert b.balances.Keys == a.balances.Keys + {t};
    assert |b.balances| <= |a.balances| + 1;
    RoomyIsCovered(b);
  }

  lemma Deposits(s: State, id: AccountId, t: Token, amount: Amount)
    requires s.mode.Active? && id in s.accounts
    requires var a := s.accounts[id]; |a.balances| <= 2 && a.openOrders == map[] && a.storageBalance == 1000 && t !in a.balances
    ensures Apply(SIZES, s, ActDeposit(id, t, amount))
         == Ok(AddHeld(s.(accounts := s.accounts[id := s.accounts[id].(balances := s.accounts[id].balances[t := amount])]), t, amount))
  {
    hide Covered, SIZES;
    RoomForOneMore(s.accounts[id], t, amount);
  }

  lemma Opens()
    ensures Apply(SIZES, Deployed(OWNER), ActCreateMarket(MARKET, TERMS, 0)) == Ok(OPEN)
  {
    Names();
    assert Pow10(0) == 1;
  }

  lemma Funds()
    ensures Apply(SIZES, OPEN, ActStorageDeposit(MAKER, false, 1000)) == Ok(JOINED)
    ensures Apply(SIZES, JOINED, ActStorageDeposit(TAKER, false, 1000)) == Ok(BOTH)
    ensures Apply(SIZES, BOTH, ActDeposit(MAKER, BASE, 100)) == Ok(BASE_IN)
    ensures Apply(SIZES, BASE_IN, ActDeposit(MAKER, NativeNear, 5)) == Ok(NEAR_IN)
    ensures Apply(SIZES, NEAR_IN, ActDeposit(TAKER, QUOTE, 20_000)) == Ok(QUOTE_IN)
  {
    hide Apply;
    Names();
    Registers(OPEN, MAKER);
    assert map[][MAKER := NEW_ACCOUNT] == map[MAKER := NEW_ACCOUNT];
    Registers(JOINED, TAKER);
    assert map[][BASE := 100] == map[BASE := 100] && map[][QUOTE := 20_000] == map[QUOTE := 20_000];
    Deposits(BOTH, MAKER, BASE, 100);
    Deposits(BASE_IN, MAKER, NativeNear, 5);
    Deposits(NEAR_IN, TAKER, QUOTE, 20_000);
  }

  const OFFER := EngineOrder(1, Some(100), 100, None, Sell, Limit)
  const RESTS := Placement(OrderId(1), [], 100, 0)

  lemma OfferPrepares()
    ensures ValidOrder(SELL) && Prepare(TERMS, EMPTY_BOOK, SELL, 1) == Ok(OFFER)
    ensures NewBook(EMPTY_BOOK, MAKER, OFFER, RESTS) == Book([], [ASK])
  {
  }

  lemma OfferTrades(accounts: Accounts)
    ensures SettleTrade(SIZES, TERMS, MARKET, Sell, accounts, [], None, 0) == Ok(Trade(accounts, 0, 0, 0, 0, 0, 0))
  {
    hide Covered;
  }

  lemma OfferPays(tr: Trade)
    requires tr.base == 0 && tr.quote == 0 && tr.fee == 0
    ensures SettleTaker(TERMS, MARKET, SELL, OFFER, RESTS, tr, WITH_NEAR, 0) == Ok(SELLER)
  {
    Names();
  }

  lemma OfferState()
    ensures QUOTE_IN.mode.Active? && QUOTE_IN.prevSequence == 0
    ensures MARKET in QUOTE_IN.markets && QUOTE_IN.markets[MARKET] == VMarket(TERMS, Trading, EMPTY_BOOK, 0)
    ensures MAKER in QUOTE_IN.accounts && QUOTE_IN.accounts[MAKER] == WITH_NEAR
  {
    Names();
  }

  lemma OfferFacts()
    ensures OFFER.side == Sell && SELL.referrer == None
    ensures EngineOk(TERMS.lots, EMPTY_BOOK, MAKER, OFFER, RESTS)
    ensures Covered(SIZES, SELLER)
  {
    hide Covered;
    PostingIsFine(OFFER, RESTS);
    RoomyIsCovered(SELLER);
  }

  /** The maker offers its hundred lots at a hundred; nothing is there to match. */
  lemma Posts()
    ensures Apply(SIZES, QUOTE_IN, ActNewOrder(MAKER, MARKET, SELL, Some(Placement(OrderId(1), [], 100, 0)), 0)) == Ok(POSTED)
  {
    hide SettleTaker, SettleTrade, Prepare, Covered, NewBook, EngineOk, QUOTE_IN, SELLER, WITH_NEAR, ValidOrder,
         MAKER, TERMS, SELL, OFFER, SIZES;
    OfferState();
    OfferPrepares();
    OfferTrades(QUOTE_IN.accounts);
    OfferPays(Trade(QUOTE_IN.accounts, 0, 0, 0, 0, 0, 0));
    OfferFacts();
  }

  lemma PostingIsFine(o: EngineOrder, pl: Placement)
    requires o == EngineOrder(1, Some(100), 100, None, Sell, Limit) && pl == Placement(OrderId(1), [], 100, 0)
    ensures EngineOk(TERMS.lots, EMPTY_BOOK, MAKER, o, pl)
  {
  }

  lemma RunStep(s: State, actions: seq<Action>, k: nat, after: State)
    requires k < |actions|
    requires Apply(SIZES, Run(SIZES, s, actions[..k]), actions[k]) == Ok(after)
    ensures Run(SIZES, s, actions[..k + 1]) == after
  {
    hide Apply;
    assert actions[..k + 1][..k] == actions[..k];
  }

  /** The setup is a run from deployment. */
  lemma SetupRuns()
    ensures Run(SIZES, Deployed(OWNER), SETUP) == POSTED
  {
    hide Apply;
    Opens();
    Funds();
    Posts();
    var s := Deployed(OWNER);
    assert Run(SIZES, s, SETUP[..0]) == s;
    hide Run;
    RunStep(s, SETUP, 0, OPEN);
    RunStep(s, SETUP, 1, JOINED);
    RunStep(s, SETUP, 2, BOTH);
    RunStep(s, SETUP, 3, BASE_IN);
    RunStep(s, SETUP, 4, NEAR_IN);
    RunStep(s, SETUP, 5, QUOTE_IN);
    RunStep(s, SETUP, 6, POSTED);
    assert SETUP[..7] == SETUP;
  }

  // ---------- The whole offer is bought ----------

  const FILL := Fill(MAKER, OrderId(1), 100, 100, 10_000, true)
  const BOUGHT := Placement(OrderId(2), [FILL], 0, 0)
  const PAID := VAccount(SELLER.balances[QUOTE := 10_000], map[], 1000)
  const TAKEN: Accounts := POSTED.accounts[MAKER := PAID]

  /** Anybody but the maker can buy it with a market order that asks for enough. */
  lemma BuyIsFine(taker: AccountId, o: EngineOrder)
    requires taker != MAKER
    requires o.sequence == 2 && o.limitPrice.None? && o.side == Buy && o.orderType.Market? && o.maxQty >= 100
    requires o.availableQuote.Some? && o.availableQuote.value >= 10_000
    ensures EngineOk(TERMS.lots, Book([], [ASK]), taker, o, BOUGHT)
    ensures NewBook(Book([], [ASK]), taker, o, BOUGHT) == EMPTY_BOOK
  {
    assert Init(BOUGHT.fills) == [] && Last(BOUGHT.fills) == FILL;
    assert AfterFills([ASK], []) == [ASK];
    assert Lookup([ASK], OrderId(1)) == Some(ASK);
    assert AfterFills([ASK], [FILL]) == [];
  }

  lemma SellerUnlisted()
    ensures RemoveOrderInfo(SELLER, MARKET, OrderId(1)) == SELLER.(openOrders := map[])
  {
    assert SELLER.openOrders[MARKET] - {OrderId(1)} == map[];
    assert SELLER.openOrders - {MARKET} == map[];
  }

  lemma SellerCredited()
    ensures QUOTE in SELLER.balances && SELLER.balances[QUOTE] == 0
    ensures Deposit(SELLER.(openOrders := map[]), QUOTE, 0) == Ok(SELLER.(openOrders := map[]))
    ensures Deposit(SELLER.(openOrders := map[]), QUOTE, 10_000) == Ok(PAID)
  {
    Names();
    assert SELLER.balances[QUOTE := 0] == SELLER.balances;
  }

  /** One fill that removes its order, in a market with unit lots and no maker rebate. */
  lemma FillPays(z: Sizes, t: Terms, mid: MarketId, accounts: Accounts, f: Fill, unlisted: VAccount, paid: VAccount)
    requires t.lots == Lots(1, 1, 1) && t.makerRate == 0
    requires f.price < TWO_128 && f.qty < TWO_128 && f.quotePaid < TWO_128 && f.removed
    requires f.maker in accounts && RemoveOrderInfo(accounts[f.maker], mid, f.makerOrder) == unlisted
    requires Deposit(unlisted, t.quoteToken, 0) == Ok(unlisted)
    requires Deposit(unlisted, t.quoteToken, f.quotePaid) == Ok(paid)
    requires Covered(z, paid)
    ensures SettleMakers(z, t, mid, Buy, accounts, [f]) == Ok(Settled(accounts[f.maker := paid], f.qty, f.quotePaid, 0))
  {
    hide Covered, RemoveOrderInfo, Deposit;
    assert Init([f]) == [] && Last([f]) == f;
    var start := Settled(accounts, 0, 0, 0);
    assert SettleMakers(z, t, mid, Buy, accounts, []) == Ok(start);
    assert SettleFill(z, t, mid, Buy, start, f) == Ok(Settled(accounts[f.maker := paid], f.qty, f.quotePaid, 0));
  }

  lemma MakerIsPaid()
    ensures SettleMakers(SIZES, TERMS, MARKET, Buy, POSTED.accounts, [FILL]) == Ok(Settled(TAKEN, 100, 10_000, 0))
  {
    assert MAKER in POSTED.accounts && POSTED.accounts[MAKER] == SELLER;
    SellerUnlisted();
    SellerCredited();
    RoomyIsCovered(PAID);
    hide Covered, RemoveOrderInfo, Deposit, SELLER, SettleMakers;
    FillPays(SIZES, TERMS, MARKET, POSTED.accounts, FILL, SELLER.(openOrders := map[]), PAID);
  }

  const REFERRED := BUYER.(balances := BUYER.balances[QUOTE := 20_010])

  lemma TakenState()
    ensures TAKER in TAKEN && TAKEN[TAKER] == BUYER
  {
    Names();
    TakerState();
    hide POSTED, PAID, BUYER, MAKER, TAKER;
  }

  lemma ReferredIsCovered()
    ensures Deposit(BUYER, QUOTE, 10) == Ok(REFERRED) && Covered(SIZES, REFERRED)
  {
    hide Covered;
    RoomyIsCovered(REFERRED);
  }

  lemma TakerIsReferred()
    ensures SettleReferrer(SIZES, QUOTE, TAKEN, Some(TAKER), 10) == Ok((TAKEN[TAKER := REFERRED], 10))
  {
    hide Covered, Deposit, TAKEN, BUYER, REFERRED;
    TakenState();
    ReferredIsCovered();
  }

  /** A trade without rebates, put together from its phases. */
  lemma TradeOf(z: Sizes, t: Terms, mid: MarketId, accounts: Accounts, fills: seq<Fill>, referrer: Option<AccountId>,
                made: Settled, fee: nat, after: Accounts, referral: nat)
    requires SettleMakers(z, t, mid, Buy, accounts, fills) == Ok(made) && made.rebate == 0
    requires Fee(t.takerRate, made.quote) == Ok(fee) && fee < TWO_128
    requires SettleReferrer(z, t.quoteToken, made.accounts, referrer, fee) == Ok((after, referral)) && referral <= fee
    ensures SettleTrade(z, t, mid, Buy, accounts, fills, referrer, 0)
         == Ok(Trade(after, made.base, made.quote, 0, fee, referral, fee - referral))
  {
    hide SettleMakers, SettleReferrer;
  }

  lemma TradesFrom(accounts: Accounts, taken: Accounts, referred: Accounts, fills: seq<Fill>)
    requires SettleMakers(SIZES, TERMS, MARKET, Buy, accounts, fills) == Ok(Settled(taken, 100, 10_000, 0))
    requires SettleReferrer(SIZES, QUOTE, taken, Some(TAKER), 10) == Ok((referred, 10))
    ensures SettleTrade(SIZES, TERMS, MARKET, Buy, accounts, fills, None, 0) == Ok(Trade(taken, 100, 10_000, 0, 10, 0, 10))
    ensures SettleTrade(SIZES, TERMS, MARKET, Buy, accounts, fills, Some(TAKER), 0) == Ok(Trade(referred, 100, 10_000, 0, 10, 10, 0))
  {
    hide SettleMakers, SettleReferrer, SettleTrade, Fee;
    TakerFee();
    NobodyIsReferred(taken);
    var made := Settled(taken, 100, 10_000, 0);
    TradeOf(SIZES, TERMS, MARKET, accounts, fills, None, made, 10, taken, 0);
    TradeOf(SIZES, TERMS, MARKET, accounts, fills, Some(TAKER), made, 10, referred, 10);
  }

  lemma TakerFee()
    ensures Fee(TERMS.takerRate, 10_000) == Ok(10) && TERMS.quoteToken == QUOTE
  {
  }

  lemma NobodyIsReferred(accounts: Accounts)
    ensures SettleReferrer(SIZES, QUOTE, accounts, None, 10) == Ok((accounts, 0))
  {
  }

  lemma TradeSettles()
    ensures SettleTrade(SIZES, TERMS, MARKET, Buy, POSTED.accounts, [FILL], None, 0) == Ok(Trade(TAKEN, 100, 10_000, 0, 10, 0, 10))
    ensures SettleTrade(SIZES, TERMS, MARKET, Buy, POSTED.accounts, [FILL], Some(TAKER), 0)
         == Ok(Trade(TAKEN[TAKER := REFERRED], 100, 10_000, 0, 10, 10, 0))
  {
    hide SettleMakers, SettleReferrer, SettleTrade, TAKEN, POSTED, REFERRED;
    MakerIsPaid();
    TakerIsReferred();
    TradesFrom(POSTED.accounts, TAKEN, TAKEN[TAKER := REFERRED], [FILL]);
  }

  const SELF_REFERRED := NewOrderParams(None, None, 100, Buy, OrderType.Market, Some(TAKER))

  /**
   * A lost update: a taker that refers itself pays a fee of ten, all of it due to the referrer, and it
   * reaches neither its balance nor the market's fees.
   */
  lemma SelfReferralLosesRebate()
    ensures var s := Run(SIZES, Deployed(OWNER), SETUP);
      var r := Apply(SIZES, s, ActNewOrder(TAKER, MARKET, SELF_REFERRED, Some(BOUGHT), 0));
      && r.Ok?
      && BalanceAt(s.accounts, TAKER, QUOTE) == 20_000
      && BalanceAt(r.value.accounts, TAKER, QUOTE) == 20_000 - 10_000 - 10
      && MARKET in r.value.markets && r.value.markets[MARKET].feesAccrued == 0
      && Gap(r.value, QUOTE) == Gap(s, QUOTE) + 10
  {
    SetupRuns();
    SelfReferralRuns();
    hide Run, Apply, POSTED, SETUP, BOUGHT, SELF_REFERRED, REBATE_LOST, BalanceAt;
  }

  lemma TakerState()
    ensures POSTED.mode.Active? && POSTED.prevSequence == 1
    ensures MARKET in POSTED.markets && POSTED.markets[MARKET] == VMarket(TERMS, Trading, Book([], [ASK]), 0)
    ensures TAKER in POSTED.accounts && POSTED.accounts[TAKER] == BUYER
    ensures BalanceAt(POSTED.accounts, TAKER, QUOTE) == 20_000
  {
    Names();
  }

  const DEBITED := BUYER.(balances := BUYER.balances[QUOTE := 9_990][BASE := 100])
  const REBATE_LOST: State := POSTED.(
    accounts := TAKEN[TAKER := REFERRED][TAKER := DEBITED],
    markets := POSTED.markets[MARKET := VMarket(TERMS, Trading, EMPTY_BOOK, 0)],
    prevSequence := 2)
  const BUY := EngineOrder(2, None, 100, Some(TWO_64 - 1), Buy, OrderType.Market)

  /** The second write puts the account that was loaded first over the one that was credited. */
  lemma SelfReferralParts()
    ensures var tr := Trade(TAKEN[TAKER := REFERRED], 100, 10_000, 0, 10, 10, 0);
      OrderParts(SIZES, POSTED, TAKER, MARKET, SELF_REFERRED, BOUGHT, 0, BUY, tr, DEBITED, REBATE_LOST)
    ensures Apply(SIZES, POSTED, ActNewOrder(TAKER, MARKET, SELF_REFERRED, Some(BOUGHT), 0)) == Ok(REBATE_LOST)
  {
    hide EngineOk, SettleTrade, SettleTaker, Prepare, Covered, NewBook, POSTED, TAKEN, REFERRED, DEBITED, BUYER, ValidOrder,
         TERMS, SIZES, BUY, SELF_REFERRED, TAKER;
    TakerState();
    TradeSettles();
    BuyPrepares(BUY);
    BuyFacts();
    BuyerPays(BUY, Trade(TAKEN[TAKER := REFERRED], 100, 10_000, 0, 10, 10, 0), DEBITED);
  }

  lemma BuyFacts()
    ensures BUY.sequence == 2 && BUY.side == Buy && SELF_REFERRED.side == Buy && SELF_REFERRED.referrer == Some(TAKER)
    ensures EngineOk(TERMS.lots, Book([], [ASK]), TAKER, BUY, BOUGHT)
    ensures NewBook(Book([], [ASK]), TAKER, BUY, BOUGHT) == EMPTY_BOOK
    ensures Covered(SIZES, DEBITED)
  {
    hide Covered;
    Names();
    BuyIsFine(TAKER, BUY);
    RoomyIsCovered(DEBITED);
  }

  lemma SelfReferralRuns()
    ensures Apply(SIZES, POSTED, ActNewOrder(TAKER, MARKET, SELF_REFERRED, Some(BOUGHT), 0)) == Ok(REBATE_LOST)
    ensures BalanceAt(POSTED.accounts, TAKER, QUOTE) == 20_000
    ensures BalanceAt(REBATE_LOST.accounts, TAKER, QUOTE) == 20_000 - 10_000 - 10
    ensures MARKET in REBATE_LOST.markets && REBATE_LOST.markets[MARKET].feesAccrued == 0
    ensures Gap(REBATE_LOST, QUOTE) == Gap(POSTED, QUOTE) + 10
  {
    Names();
    TakerState();
    SelfReferralParts();
    assert BalanceAt(REBATE_LOST.accounts, TAKER, QUOTE) == 9_990;
    assert REBATE_LOST.markets[MARKET].feesAccrued == 0;
    hide Apply, OrderParts, POSTED, TAKEN, REFERRED, DEBITED, REBATE_LOST, Gap, FillDust, NewBook;
    var tr := Trade(TAKEN[TAKER := REFERRED], 100, 10_000, 0, 10, 10, 0);
    OrderConserves(SIZES, POSTED, TAKER, MARKET, SELF_REFERRED, BOUGHT, 0, BUY, tr, DEBITED, REBATE_LOST, QUOTE);
    BuyDustless();
  }

  lemma BuyDustless()
    ensures FillDust(TERMS.lots, Buy, Book([], [ASK]), BOUGHT.fills) == 0
  {
  }

  lemma BuyPrepares(o: EngineOrder)
    requires o == BUY
    ensures ValidOrder(SELF_REFERRED) && Prepare(TERMS, Book([], [ASK]), SELF_REFERRED, 2) == Ok(o)
  {
  }

  lemma BuyerPays(o: EngineOrder, tr: Trade, after: VAccount)
    requires tr.base == 100 && tr.quote == 10_000 && tr.fee == 10
    requires after == DEBITED
    ensures SettleTaker(TERMS, MARKET, SELF_REFERRED, o, BOUGHT, tr, BUYER, 0) == Ok(after)
  {
    Names();
  }

  // ---------- A swap that pays out a token ----------

  const CAROL := AccountId("carol")
  const HOP := Hop(MARKET, Buy, Some(100), None, Some(BOUGHT))
  const SWAP := ActSwap(CAROL, CAROL, QUOTE, 10_010, [HOP])
  const ARRIVED: State := AddHeld(POSTED, QUOTE, 10_010)
  const SWAPPED: State := ARRIVED.(
    accounts := TAKEN,
    markets := POSTED.markets[MARKET := VMarket(TERMS, Trading, EMPTY_BOOK, 10)],
    prevSequence := 2)
  const PAYING: State := Schedule(SWAPPED, CAROL, BASE, 100)

  lemma SwapPrepares(o: EngineOrder)
    requires o == EngineOrder(2, None, TWO_64 - 1, Some(10_000), Buy, OrderType.Market)
    ensures SwapOrder(TERMS, Buy, 10_010, 2) == Ok(o)
  {
    assert (TWO_128 - 1) % TWO_64 == TWO_64 - 1;
    assert Withhold(10, 10_010) == Ok(10_000);
  }

  lemma SwapSettles(tr: Trade)
    requires tr.base == 100 && tr.quote == 10_000 && tr.fee == 10
    ensures SwapOutput(Buy, tr) == Ok(100) && SwapRefund(Buy, 10_010, tr) == Ok(0)
  {
  }

  lemma HopRuns()
    ensures SwapHop(SIZES, ARRIVED, CAROL, QUOTE, 10_010, HOP) == Ok(Carried(SWAPPED, BASE, 100, 0))
  {
    assert "carol"[0] != "maker"[0];
    var o := EngineOrder(2, None, TWO_64 - 1, Some(10_000), Buy, OrderType.Market);
    hide TAKEN, EngineOk, SettleTrade, NewBook, SwapOrder, SwapOutput, SwapRefund;
    SwapPrepares(o);
    BuyIsFine(CAROL, o);
    TradeSettles();
    SwapSettles(Trade(TAKEN, 100, 10_000, 0, 10, 0, 10));
  }

  lemma SwapRuns()
    ensures Apply(SIZES, POSTED, SWAP) == Ok(PAYING)
    ensures Surplus(SIZES, POSTED, SWAP, NativeNear) == -1
  {
    Names();
    HopRuns();
    hide SwapHop, POSTED, TAKEN;
    assert [HOP][..0] == [];
    assert SwapChain(SIZES, ARRIVED, CAROL, QUOTE, 10_010, []) == Ok(Carried(ARRIVED, QUOTE, 10_010, 0));
    assert SwapChain(SIZES, ARRIVED, CAROL, QUOTE, 10_010, [HOP]) == Ok(Carried(SWAPPED, BASE, 100, 0));
    MarketPairs();
    assert HopSurplus(SIZES, ARRIVED, CAROL, QUOTE, 10_010, HOP, NativeNear) == 0;
    assert ChainSurplus(SIZES, ARRIVED, CAROL, QUOTE, 10_010, [HOP], NativeNear) == 0;
    hide SwapChain, ChainSurplus;
  }

  lemma MarketPairs()
    ensures MARKET in POSTED.markets && POSTED.markets[MARKET].terms == TERMS && POSTED.mode.Active?
  {
  }

  lemma ExactTo(s: State, a: Action, after: State, t: Token)
    requires Apply(SIZES, s, a) == Ok(after)
    requires Exact(SIZES, s, a, t)
    ensures Gap(after, t) == Gap(s, t)
  {
    hide Gap, Apply, Exact;
    ExactStep(SIZES, s, a, t);
  }

  lemma OfferIsExact(t: Token)
    ensures Exact(SIZES, QUOTE_IN, SETUP[6], t)
  {
    assert OrderIsExact(TERMS.lots, MAKER, SELL);
  }

  /** Nothing in the setup moves a gap. */
  lemma SetupIsExact(t: Token)
    ensures Gap(POSTED, t) == 0
  {
    hide Gap, Apply, OPEN, JOINED, BOTH, BASE_IN, NEAR_IN, QUOTE_IN, POSTED, TERMS, SELL, Deployed, OrderIsExact;
    DeployedIsSound(SIZES, OWNER, t);
    Opens();
    Funds();
    Posts();
    OfferIsExact(t);
    ExactTo(Deployed(OWNER), SETUP[0], OPEN, t);
    ExactTo(OPEN, SETUP[1], JOINED, t);
    ExactTo(JOINED, SETUP[2], BOTH, t);
    ExactTo(BOTH, SETUP[3], BASE_IN, t);
    ExactTo(BASE_IN, SETUP[4], NEAR_IN, t);
    ExactTo(NEAR_IN, SETUP[5], QUOTE_IN, t);
    ExactTo(QUOTE_IN, SETUP[6], POSTED, t);
  }

  /**
   * NEAR falls short: the maker deposited five yocto and is owed five, but the delivery of another's swap
   * into a token has used up one.
   */
  lemma TokenPayoutTakesNear()
    ensures var s := Run(SIZES, Deployed(OWNER), SETUP + [SWAP, ActTransfer(0, true)]);
      && BalanceAt(s.accounts, MAKER, NativeNear) == 5
      && Held(s, NativeNear) == 4
      && Liabilities(s, NativeNear) == 5
      && s.sends == [Send(BASE, CAROL, 100, Delivered)]
  {
    var paid := TransferSettles(PAYING, 0, true).value;
    SetupRuns();
    SwapRuns();
    Delivers();
    PaidGap();
    hide SETUP, POSTED, SWAP, PAYING, Run, Gap, Surplus, Apply, TransferSettles;
    RunTwo(Deployed(OWNER), SETUP, SWAP, ActTransfer(0, true), POSTED, PAYING, paid);
    GapIs(paid);
  }

  lemma PaidGap()
    ensures TransferSettles(PAYING, 0, true).Ok?
    ensures Gap(TransferSettles(PAYING, 0, true).value, NativeNear) == -1
  {
    SwapRuns();
    Delivers();
    SetupIsExact(NativeNear);
    hide POSTED, SWAP, PAYING, Gap, Surplus, Apply, TransferSettles;
    StepMovesGap(SIZES, POSTED, SWAP, NativeNear);
    StepMovesGap(SIZES, PAYING, ActTransfer(0, true), NativeNear);
  }

  lemma RunTwo(s: State, actions: seq<Action>, a: Action, b: Action, before: State, between: State, after: State)
    requires Run(SIZES, s, actions) == before
    requires Apply(SIZES, before, a) == Ok(between) && Apply(SIZES, between, b) == Ok(after)
    ensures Run(SIZES, s, actions + [a, b]) == after
  {
    hide Run, Apply;
    var all, n := actions + [a, b], |actions|;
    assert all[..n] == actions && all[..n + 2] == all;
    RunStep(s, all, n, between);
    RunStep(s, all, n + 1, after);
  }

  lemma GapIs(s: State)
    ensures Gap(s, NativeNear) == Held(s, NativeNear) - Liabilities(s, NativeNear)
  {
  }

  lemma PayingState()
    ensures PAYING.sends == [Send(BASE, CAROL, 100, InFlight)]
    ensures Held(PAYING, NativeNear) == 5
    ensures BalanceAt(PAYING.accounts, MAKER, NativeNear) == 5
  {
    Names();
  }

  lemma Delivers()
    ensures PAYING.sends == [Send(BASE, CAROL, 100, InFlight)]
    ensures TransferSettles(PAYING, 0, true).Ok?
    ensures var paid := TransferSettles(PAYING, 0, true).value;
      && Apply(SIZES, PAYING, ActTransfer(0, true)) == Ok(paid)
      && paid.sends == [Send(BASE, CAROL, 100, Delivered)]
      && Held(paid, NativeNear) == 4
      && BalanceAt(paid.accounts, MAKER, NativeNear) == 5
      && Surplus(SIZES, PAYING, ActTransfer(0, true), NativeNear) == 0
  {
    PayingState();
    hide PAYING;
  }

  // ---------- An amount that nobody can be credited with ----------

  const BOUNCE: seq<Action> := [
    ActStorageDeposit(TAKER, false, 1000),
    ActDeposit(TAKER, QUOTE, 5),
    ActWithdraw(TAKER, QUOTE, 5),
    ActUnregister(TAKER),
    ActTransfer(0, false),
    ActCallback(0)]

  const ALONE: State := Deployed(OWNER).(accounts := map[TAKER := NEW_ACCOUNT], storageHeld := 1000)
  const FUNDED: State := AddHeld(ALONE.(accounts := map[TAKER := NEW_ACCOUNT.(balances := map[QUOTE := 5])]), QUOTE, 5)
  const LEAVING: State := Schedule(TakeYocto(FUNDED.(accounts := map[TAKER := NEW_ACCOUNT])), TAKER, QUOTE, 5)
  const GONE: State := TakeYocto(LEAVING.(accounts := map[], storageHeld := 0))
  const BOUNCED: State := GONE.(sends := [Send(QUOTE, TAKER, 5, Bounced)])
  const STRANDED: State := GONE.(sends := [Send(QUOTE, TAKER, 5, Closed(None))])

  lemma JoinsAndFunds()
    ensures Apply(SIZES, Deployed(OWNER), BOUNCE[0]) == Ok(ALONE)
    ensures Apply(SIZES, ALONE, BOUNCE[1]) == Ok(FUNDED)
  {
    hide Apply;
    Registers(Deployed(OWNER), TAKER);
    assert map[][TAKER := NEW_ACCOUNT] == map[TAKER := NEW_ACCOUNT];
    Deposits(ALONE, TAKER, QUOTE, 5);
    assert map[][QUOTE := 5] == map[QUOTE := 5];
    assert ALONE.accounts[TAKER := FUNDED.accounts[TAKER]] == FUNDED.accounts;
  }

  lemma Withdraws()
    ensures Apply(SIZES, FUNDED, BOUNCE[2]) == Ok(LEAVING)
  {
    RoomyIsCovered(NEW_ACCOUNT);
    hide Covered;
    assert map[QUOTE := 5] - {QUOTE} == map[];
    assert FUNDED.accounts[TAKER := NEW_ACCOUNT] == map[TAKER := NEW_ACCOUNT];
  }

  lemma Leaves()
    ensures Apply(SIZES, LEAVING, BOUNCE[3]) == Ok(GONE)
  {
    assert LEAVING.accounts - {TAKER} == map[];
  }

  lemma Bounces()
    ensures Apply(SIZES, GONE, BOUNCE[4]) == Ok(BOUNCED)
    ensures Apply(SIZES, BOUNCED, BOUNCE[5]) == Ok(STRANDED)
  {
    Names();
    assert GONE.sends == [Send(QUOTE, TAKER, 5, InFlight)];
    assert GONE.sends[0 := Send(QUOTE, TAKER, 5, Bounced)] == BOUNCED.sends;
    assert BOUNCED.sends[0 := Send(QUOTE, TAKER, 5, Closed(None))] == STRANDED.sends;
  }

  lemma StrandedHolds()
    ensures Held(STRANDED, QUOTE) == 5 && Liabilities(STRANDED, QUOTE) == 0
  {
    Names();
    assert STRANDED.accounts == map[] && STRANDED.markets == map[];
    SumZero(BalancesOf(map[], QUOTE));
    SumZero(ClaimsOf(map[], QUOTE));
    assert STRANDED.sends[1..] == [];
    assert TotalSends(STRANDED.sends, QUOTE) == 0;
  }

  /** Five units held, and nobody they are owed to: their owner has left, and the contract's is not registered. */
  lemma BouncedAmountIsStranded()
    ensures var s := Run(SIZES, Deployed(OWNER), BOUNCE);
      && Held(s, QUOTE) == 5
      && Liabilities(s, QUOTE) == 0
      && s.sends == [Send(QUOTE, TAKER, 5, Closed(None))]
  {
    var s := Deployed(OWNER);
    assert Run(SIZES, s, BOUNCE[..0]) == s;
    assert BOUNCE[..6] == BOUNCE;
    assert STRANDED.sends == [Send(QUOTE, TAKER, 5, Closed(None))];
    JoinsAndFunds();
    Withdraws();
    Leaves();
    Bounces();
    StrandedHolds();
    hide Run, Apply, Deployed, ALONE, FUNDED, LEAVING, GONE, BOUNCED, STRANDED, BOUNCE, Held, Liabilities;
    RunStep(s, BOUNCE, 0, ALONE);
    RunStep(s, BOUNCE, 1, FUNDED);
    RunStep(s, BOUNCE, 2, LEAVING);
    RunStep(s, BOUNCE, 3, GONE);
    RunStep(s, BOUNCE, 4, BOUNCED);
    RunStep(s, BOUNCE, 5, STRANDED);
  }

  // ---------- A swap that keeps its input ----------

  const NOTHING := Placement(OrderId(1), [], 0, 0)
  const IDLE_HOP := Hop(MARKET, Buy, Some(0), None, Some(NOTHING))
  const IDLE := [ActCreateMarket(MARKET, TERMS, 0), ActSwap(CAROL, CAROL, QUOTE, 100, [IDLE_HOP])]
  const KEPT: State := AddHeld(OPEN, QUOTE, 100).(prevSequence := 1)

  lemma IdlePrepares(o: EngineOrder)
    requires o == EngineOrder(1, None, TWO_64 - 1, Some(100), Buy, OrderType.Market)
    ensures SwapOrder(TERMS, Buy, 100, 1) == Ok(o)
  {
    assert (TWO_128 - 1) % TWO_64 == TWO_64 - 1;
    assert Withhold(10, 100) == Ok(100);
  }

  lemma IdleTrades()
    ensures SettleTrade(SIZES, TERMS, MARKET, Buy, map[], [], None, 0) == Ok(Trade(map[], 0, 0, 0, 0, 0, 0))
  {
    hide Covered;
  }

  lemma IdleIsFine(o: EngineOrder)
    requires o == EngineOrder(1, None, TWO_64 - 1, Some(100), Buy, OrderType.Market)
    ensures EngineOk(TERMS.lots, EMPTY_BOOK, CAROL, o, NOTHING)
    ensures NewBook(EMPTY_BOOK, CAROL, o, NOTHING) == EMPTY_BOOK
  {
    NothingPlaced(EMPTY_BOOK, CAROL, o);
  }

  lemma IdleHopRuns()
    ensures SwapHop(SIZES, AddHeld(OPEN, QUOTE, 100), CAROL, QUOTE, 100, IDLE_HOP) == Ok(Carried(KEPT, BASE, 0, 100))
  {
    hide SettleTrade, SwapOrder, NewBook, EngineOk;
    var o := EngineOrder(1, None, TWO_64 - 1, Some(100), Buy, OrderType.Market);
    IdlePrepares(o);
    IdleIsFine(o);
    IdleTrades();
    assert OPEN.markets[MARKET := OPEN.markets[MARKET]] == OPEN.markets;
  }

  /** A swap into an empty book sends nothing and keeps the hundred units it was given. */
  lemma IdleSwapKeepsInput()
    ensures var s := Run(SIZES, Deployed(OWNER), IDLE);
      && Held(s, QUOTE) == 100
      && Liabilities(s, QUOTE) == 0
      && s.sends == [] && s.prevSequence == 1
  {
    var start := AddHeld(OPEN, QUOTE, 100);
    IdleHopRuns();
    Opens();
    hide SwapHop;
    assert [IDLE_HOP][..0] == [];
    assert SwapChain(SIZES, start, CAROL, QUOTE, 100, []) == Ok(Carried(start, QUOTE, 100, 0));
    assert SwapChain(SIZES, start, CAROL, QUOTE, 100, [IDLE_HOP]) == Ok(Carried(KEPT, BASE, 0, 100));
    assert Apply(SIZES, OPEN, IDLE[1]) == Ok(KEPT);
    assert Run(SIZES, Deployed(OWNER), IDLE[..0]) == Deployed(OWNER);
    hide Run, Apply;
    RunStep(Deployed(OWNER), IDLE, 0, OPEN);
    RunStep(Deployed(OWNER), IDLE, 1, KEPT);
    assert IDLE[..2] == IDLE;
    SumZero(BalancesOf(map[], QUOTE));
    SumZero(ClaimsOf(map[], QUOTE));
    TotalClaimsUpdate(map[], MARKET, VMarket(TERMS, Trading, EMPTY_BOOK, 0), QUOTE);
    assert map[][MARKET := VMarket(TERMS, Trading, EMPTY_BOOK, 0)] == OPEN.markets;
  }

  // ---------- An order at a price of zero lots ----------

  const COARSE: Terms := MarketTerms(BASE, QUOTE, Lots(1, 10, 1), 10, 0, 20, 0, 0)
  const CHEAP := NewOrderParams(Some(5), None, 50, Sell, Limit, None)
  const CHEAP_RESTS := Placement(OrderId(1), [], 50, 0)
  const CHEAP_SETUP: seq<Action> := [
    ActCreateMarket(MARKET, COARSE, 0),
    ActStorageDeposit(MAKER, false, 1000),
    ActDeposit(MAKER, BASE, 100),
    ActNewOrder(MAKER, MARKET, CHEAP, Some(CHEAP_RESTS), 0)]

  const COARSE_OPEN: State := Deployed(OWNER).(markets := map[MARKET := VMarket(COARSE, Trading, EMPTY_BOOK, 0)])
  const COARSE_JOINED: State := COARSE_OPEN.(accounts := map[MAKER := NEW_ACCOUNT], storageHeld := 1000)
  const COARSE_IN: State := AddHeld(COARSE_JOINED.(accounts := map[MAKER := WITH_BASE]), BASE, 100)
  const CHEAP_SELLER := VAccount(map[BASE := 100][QUOTE := 0][BASE := 50], map[MARKET := map[OrderId(1) := OrderInfo(50, 0)]], 1000)
  const CHEAP_ASK := Order(OrderId(1), MAKER, 0, 50)
  const CHEAP_POSTED: State := COARSE_IN.(
    accounts := COARSE_IN.accounts[MAKER := CHEAP_SELLER],
    markets := COARSE_IN.markets[MARKET := VMarket(COARSE, Trading, Book([], [CHEAP_ASK]), 0)],
    prevSequence := 1)
  const CHEAP_OFFER := EngineOrder(1, Some(0), 50, None, Sell, Limit)

  lemma CoarseSteps()
    ensures Apply(SIZES, Deployed(OWNER), CHEAP_SETUP[0]) == Ok(COARSE_OPEN)
    ensures Apply(SIZES, COARSE_OPEN, CHEAP_SETUP[1]) == Ok(COARSE_JOINED)
    ensures Apply(SIZES, COARSE_JOINED, CHEAP_SETUP[2]) == Ok(COARSE_IN)
  {
    CoarseOpens();
    hide Apply;
    Registers(COARSE_OPEN, MAKER);
    assert map[][MAKER := NEW_ACCOUNT] == map[MAKER := NEW_ACCOUNT];
    assert map[][BASE := 100] == map[BASE := 100];
    assert COARSE_JOINED.accounts[MAKER := WITH_BASE] == map[MAKER := WITH_BASE];
    Deposits(COARSE_JOINED, MAKER, BASE, 100);
  }

  lemma CoarseOpens()
    ensures Apply(SIZES, Deployed(OWNER), CHEAP_SETUP[0]) == Ok(COARSE_OPEN)
  {
    Names();
    assert Pow10(0) == 1;
  }

  lemma CheapPrepares()
    ensures ValidOrder(CHEAP) && Prepare(COARSE, EMPTY_BOOK, CHEAP, 1) == Ok(CHEAP_OFFER)
    ensures CHEAP_OFFER.side == Sell && CHEAP.referrer == None
  {
    assert 5 / 10 == 0;
  }

  lemma CheapRests()
    ensures NewBook(EMPTY_BOOK, MAKER, CHEAP_OFFER, CHEAP_RESTS) == Book([], [CHEAP_ASK])
    ensures EngineOk(COARSE.lots, EMPTY_BOOK, MAKER, CHEAP_OFFER, CHEAP_RESTS)
  {
  }

  lemma CheapTrades(accounts: Accounts)
    ensures SettleTrade(SIZES, COARSE, MARKET, Sell, accounts, [], None, 0) == Ok(Trade(accounts, 0, 0, 0, 0, 0, 0))
  {
    hide Covered;
  }

  lemma CheapPays(tr: Trade)
    requires tr.base == 0 && tr.quote == 0 && tr.fee == 0
    ensures SettleTaker(COARSE, MARKET, CHEAP, CHEAP_OFFER, CHEAP_RESTS, tr, WITH_BASE, 0) == Ok(CHEAP_SELLER)
    ensures Covered(SIZES, CHEAP_SELLER)
  {
    hide Covered;
    Names();
    RoomyIsCovered(CHEAP_SELLER);
  }

  lemma CoarseState()
    ensures COARSE_IN.mode.Active? && COARSE_IN.prevSequence == 0
    ensures MARKET in COARSE_IN.markets && COARSE_IN.markets[MARKET] == VMarket(COARSE, Trading, EMPTY_BOOK, 0)
    ensures MAKER in COARSE_IN.accounts && COARSE_IN.accounts[MAKER] == WITH_BASE
  {
  }

  lemma CheapPosts()
    ensures Apply(SIZES, COARSE_IN, CHEAP_SETUP[3]) == Ok(CHEAP_POSTED)
  {
    hide SettleTaker, SettleTrade, Prepare, Covered, NewBook, EngineOk, COARSE_IN, CHEAP_SELLER, WITH_BASE, ValidOrder,
         MAKER, COARSE, CHEAP, CHEAP_OFFER, SIZES;
    CoarseState();
    CheapPrepares();
    CheapTrades(COARSE_IN.accounts);
    CheapPays(Trade(COARSE_IN.accounts, 0, 0, 0, 0, 0, 0));
    CheapRests();
  }

  lemma CheapState()
    ensures CHEAP_POSTED.mode.Active?
    ensures MARKET in CHEAP_POSTED.markets && CHEAP_POSTED.markets[MARKET] == VMarket(COARSE, Trading, Book([], [CHEAP_ASK]), 0)
    ensures MAKER in CHEAP_POSTED.accounts
    ensures ValidOrder(CHEAP) && MeetsZeroPrice(Book([], [CHEAP_ASK]), CHEAP)
  {
  }

  /**
   * With a quote lot of ten, an ask at five rests at a price of zero lots, and the same ask again panics on
   * a division by zero, whatever the engine would answer.
   */
  lemma ZeroPricedAskBlocksAsks(placed: Option<Placement>, now: nat)
    ensures var s := Run(SIZES, Deployed(OWNER), CHEAP_SETUP);
      && MARKET in s.markets && s.markets[MARKET].book.asks == [Order(OrderId(1), MAKER, 0, 50)]
      && Apply(SIZES, s, ActNewOrder(MAKER, MARKET, CHEAP, placed, now)) == Err(DivisionByZero)
  {
    var s := Deployed(OWNER);
    assert Run(SIZES, s, CHEAP_SETUP[..0]) == s;
    assert CHEAP_SETUP[..4] == CHEAP_SETUP;
    CoarseSteps();
    CheapPosts();
    CheapState();
    ZeroPriceBlocks(SIZES, CHEAP_POSTED, MAKER, MARKET, CHEAP, placed, now);
    hide Run, NewOrder, Deployed, COARSE_OPEN, COARSE_JOINED, COARSE_IN, CHEAP_POSTED, CHEAP, ValidOrder, MeetsZeroPrice;
    assert Apply(SIZES, CHEAP_POSTED, ActNewOrder(MAKER, MARKET, CHEAP, placed, now)) == Err(DivisionByZero);
    hide Apply, CHEAP_SETUP;
    RunStep(s, CHEAP_SETUP, 0, COARSE_OPEN);
    RunStep(s, CHEAP_SETUP, 1, COARSE_JOINED);
    RunStep(s, CHEAP_SETUP, 2, COARSE_IN);
    RunStep(s, CHEAP_SETUP, 3, CHEAP_POSTED);
  }
}

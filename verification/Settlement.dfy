/** Settling the makers of a trade, the referrer and the market's fee income. */
module Settlement {
  import opened Arithmetic
  import opened Fees
  import opened Ledger
  import opened OrderBook
  import opened OrderIndex
  import opened Outcomes
  import opened StoredAccount
  import opened Types

  /** The accounts part-way through the fills, with the totals so far. */
  datatype Settled = Settled(accounts: Accounts, base: nat, quote: nat, rebate: nat)

  ghost function SettleFill(z: Sizes, t: Terms, mid: MarketId, side: Side, s: Settled, f: Fill): Result<Settled> {
    var _ :- U128(f.price * t.lots.quote);
    var qty :- U128(f.qty * t.lots.base);
    var base :- U128(s.base + qty);
    var quote :- U128(s.quote + f.quotePaid);
    :- Need(f.maker in s.accounts, MakerNotFound);
    var maker := s.accounts[f.maker];
    var unlisted := if f.removed then RemoveOrderInfo(maker, mid, f.makerOrder) else maker;
    var fillRebate :- Fee(t.makerRate, f.quotePaid);
    var rebate :- U128(s.rebate + fillRebate);
    var rebated :- Deposit(unlisted, t.quoteToken, fillRebate);
    var paid :- if side == Buy then Deposit(rebated, t.quoteToken, f.quotePaid) else Deposit(rebated, t.baseToken, qty);
    var accounts :- Save(z, s.accounts, f.maker, paid);
    Ok(Settled(accounts, base, quote, rebate))
  }

  /** The maker phase: one load, change and save per fill, in order. */
  ghost function SettleMakers(z: Sizes, t: Terms, mid: MarketId, side: Side, accounts: Accounts, fills: seq<Fill>): Result<Settled> {
    if fills == [] then Ok(Settled(accounts, 0, 0, 0))
    else
      var s :- SettleMakers(z, t, mid, side, accounts, Init(fills));
      SettleFill(z, t, mid, side, s, Last(fills))
  }

  /** The referrer's account after its credit, and the credit; nothing when it cannot be saved. */
  ghost function SettleReferrer(z: Sizes, quote: Token, accounts: Accounts, referrer: Option<AccountId>, fee: nat): Result<(Accounts, nat)> {
    if referrer.Some? && referrer.value in accounts then
      var a :- Deposit(accounts[referrer.value], quote, ReferrerRebate(fee));
      if Covered(z, a) then Ok((accounts[referrer.value := a], ReferrerRebate(fee)))
      else Ok((accounts, 0))
    else Ok((accounts, 0))
  }

  /**
   * Everything a trade settles before the taker: the accounts, what was traded, how the fee was split and
   * what the market's fees come to, whose overflow the caller checks.
   */
  datatype Trade = Trade(accounts: Accounts, base: nat, quote: nat, rebate: nat, fee: nat, referral: nat, fees: nat)

  ghost function SettleTrade(z: Sizes, t: Terms, mid: MarketId, side: Side, accounts: Accounts, fills: seq<Fill>,
                             referrer: Option<AccountId>, feesAccrued: nat): Result<Trade>
  {
    var s :- SettleMakers(z, t, mid, side, accounts, fills);
    var fee :- Fee(t.takerRate, s.quote);
    var net :- Minus(fee, s.rebate);
    var referred :- SettleReferrer(z, t.quoteToken, s.accounts, referrer, net);
    var given :- U128(referred.1 + s.rebate);
    :- Need(given <= fee, OverCountedFees);
    Ok(Trade(referred.0, s.base, s.quote, s.rebate, fee, referred.1, feesAccrued + (fee - s.rebate - referred.1)))
  }

  lemma {:induction false} MakersNeverDivide(z: Sizes, t: Terms, mid: MarketId, side: Side, accounts: Accounts, fills: seq<Fill>)
    ensures SettleMakers(z, t, mid, side, accounts, fills) != Err(DivisionByZero)
    ensures SettleMakers(z, t, mid, side, accounts, fills) != Err(OutsideTradingWindow)
  {
    hide SettleFill;
    if fills != [] {
      MakersNeverDivide(z, t, mid, side, accounts, Init(fills));
      var s := SettleMakers(z, t, mid, side, accounts, Init(fills));
      if s.Ok? {
        FillNeverDivides(z, t, mid, side, s.value, Last(fills));
      }
    }
  }

  lemma FillNeverDivides(z: Sizes, t: Terms, mid: MarketId, side: Side, s: Settled, f: Fill)
    ensures SettleFill(z, t, mid, side, s, f) != Err(DivisionByZero)
    ensures SettleFill(z, t, mid, side, s, f) != Err(OutsideTradingWindow)
  {
    hide Covered, RemoveOrderInfo;
  }

  lemma TradeNeverDivides(z: Sizes, t: Terms, mid: MarketId, side: Side, accounts: Accounts, fills: seq<Fill>,
                          referrer: Option<AccountId>, feesAccrued: nat)
    ensures SettleTrade(z, t, mid, side, accounts, fills, referrer, feesAccrued) != Err(DivisionByZero)
    ensures SettleTrade(z, t, mid, side, accounts, fills, referrer, feesAccrued) != Err(OutsideTradingWindow)
  {
    hide Covered, SettleMakers;
    MakersNeverDivide(z, t, mid, side, accounts, fills);
  }

  // ---------- The ledger each account sees ----------

  /** What one fill brings its maker in a token: the rebate, and the other leg of the trade. */
  function Proceeds(t: Terms, side: Side, f: Fill, token: Token): nat {
    (if token == t.quoteToken then FeeOn(t.makerRate, f.quotePaid) + (if side == Buy then f.quotePaid else 0) else 0)
    + (if token == t.baseToken && side == Sell then f.qty * t.lots.base else 0)
  }

  function Earned(t: Terms, side: Side, fills: seq<Fill>, a: AccountId, token: Token): nat {
    if fills == [] then 0
    else Earned(t, side, Init(fills), a, token) + (if Last(fills).maker == a then Proceeds(t, side, Last(fills), token) else 0)
  }

  function TotalRebate(rate: nat, fills: seq<Fill>): nat {
    if fills == [] then 0 else TotalRebate(rate, Init(fills)) + FeeOn(rate, Last(fills).quotePaid)
  }

  /** All that the makers receive together. */
  function MakersReceive(t: Terms, side: Side, fills: seq<Fill>, token: Token): nat {
    (if token == t.quoteToken then TotalRebate(t.makerRate, fills) + (if side == Buy then TotalQuote(fills) else 0) else 0)
    + (if token == t.baseToken && side == Sell then TotalQty(fills) * t.lots.base else 0)
  }

  lemma SettleFillEffect(z: Sizes, t: Terms, mid: MarketId, side: Side, s: Settled, f: Fill, token: Token)
    requires SettleFill(z, t, mid, side, s, f).Ok?
    ensures f.maker in s.accounts
    ensures var r := SettleFill(z, t, mid, side, s, f).value;
      && f.maker in r.accounts
      && r.base == s.base + f.qty * t.lots.base
      && r.quote == s.quote + f.quotePaid
      && r.rebate == s.rebate + FeeOn(t.makerRate, f.quotePaid)
      && (var before, after := s.accounts[f.maker], r.accounts[f.maker];
          && r.accounts == s.accounts[f.maker := after]
          && after.storageBalance == before.storageBalance
          && after.openOrders == (if f.removed then RemoveOrderInfo(before, mid, f.makerOrder) else before).openOrders
          && Covered(z, after)
          && Balance(after, token) == Balance(before, token) + Proceeds(t, side, f, token))
  {
    hide Covered;
    var maker := s.accounts[f.maker];
    var unlisted := if f.removed then RemoveOrderInfo(maker, mid, f.makerOrder) else maker;
    assert Balance(unlisted, token) == Balance(maker, token);
    DepositEffect(unlisted, t.quoteToken, FeeOn(t.makerRate, f.quotePaid), token);
    var rebated := Deposit(unlisted, t.quoteToken, FeeOn(t.makerRate, f.quotePaid)).value;
    if side == Buy {
      DepositEffect(rebated, t.quoteToken, f.quotePaid, token);
    } else {
      DepositEffect(rebated, t.baseToken, f.qty * t.lots.base, token);
    }
    hide Deposit, Balance;
  }

  /** Every result of a fill's settlement fits its integer. */
  predicate FillFits(t: Terms, side: Side, s: Settled, f: Fill)
    requires f.maker in s.accounts
  {
    var rebate := FeeOn(t.makerRate, f.quotePaid);
    var a := s.accounts[f.maker];
    && f.price * t.lots.quote < TWO_128
    && s.base + f.qty * t.lots.base < TWO_128
    && s.quote + f.quotePaid < TWO_128
    && f.quotePaid * t.makerRate < TWO_128
    && s.rebate + rebate < TWO_128
    && Balance(a, t.quoteToken) + rebate + (if side == Buy then f.quotePaid else 0) < TWO_128
    && (side == Sell ==>
          Balance(a, t.baseToken) + (if t.baseToken == t.quoteToken then rebate else 0) + f.qty * t.lots.base < TWO_128)
  }

  /** The bytes of the balance entries that a fill adds: the quote entry even for a rebate of nothing. */
  function NewEntries(z: Sizes, t: Terms, side: Side, a: VAccount): nat {
    (if t.quoteToken in a.balances then 0 else z.entrySize(t.quoteToken))
    + (if side == Buy || t.baseToken in a.balances || t.baseToken == t.quoteToken then 0 else z.entrySize(t.baseToken))
  }

  /** The maker's account once its order is off its list, if the fill removed it. */
  function Unlisted(mid: MarketId, a: VAccount, f: Fill): VAccount {
    if f.removed then RemoveOrderInfo(a, mid, f.makerOrder) else a
  }

  /** The maker's account with its rebate and proceeds. */
  function CreditMaker(t: Terms, side: Side, a: VAccount, f: Fill): Result<VAccount> {
    var rebated :- Deposit(a, t.quoteToken, FeeOn(t.makerRate, f.quotePaid));
    if side == Buy then Deposit(rebated, t.quoteToken, f.quotePaid) else Deposit(rebated, t.baseToken, f.qty * t.lots.base)
  }

  lemma CreditMakerSize(z: Sizes, t: Terms, side: Side, a: VAccount, f: Fill)
    requires CreditMaker(t, side, a, f).Ok?
    ensures var b := CreditMaker(t, side, a, f).value;
      BorshSize(z, b) == BorshSize(z, a) + NewEntries(z, t, side, a) && b.storageBalance == a.storageBalance
  {
    hide BorshSize;
    var rebate := FeeOn(t.makerRate, f.quotePaid);
    var rebated := Deposit(a, t.quoteToken, rebate).value;
    DepositSize(z, a, t.quoteToken, rebate);
    if side == Buy {
      DepositSize(z, rebated, t.quoteToken, f.quotePaid);
    } else {
      DepositSize(z, rebated, t.baseToken, f.qty * t.lots.base);
    }
  }

  lemma FillUnfolds(z: Sizes, t: Terms, mid: MarketId, side: Side, s: Settled, f: Fill)
    requires f.maker in s.accounts
    ensures var paid := CreditMaker(t, side, Unlisted(mid, s.accounts[f.maker], f), f);
      SettleFill(z, t, mid, side, s, f).Ok? <==> FillFits(t, side, s, f) && paid.Ok? && Covered(z, paid.value)
  {
    hide Covered;
    var a := s.accounts[f.maker];
    assert Unlisted(mid, a, f).balances == a.balances;
    hide RemoveOrderInfo;
  }

  lemma CreditMakerFits(t: Terms, mid: MarketId, side: Side, s: Settled, f: Fill)
    requires f.maker in s.accounts && FillFits(t, side, s, f)
    ensures CreditMaker(t, side, Unlisted(mid, s.accounts[f.maker], f), f).Ok?
  {
    assert Unlisted(mid, s.accounts[f.maker], f).balances == s.accounts[f.maker].balances;
    hide RemoveOrderInfo, FeeOn;
  }

  /**
   * One fill settles exactly when its maker is registered, nothing overflows, and the maker's deposit covers
   * its account without the consumed order and with the balance entries it gains. A maker that cannot hold
   * them fails every order that matches it.
   */
  lemma FillSettlesExactly(z: Sizes, t: Terms, mid: MarketId, side: Side, s: Settled, f: Fill)
    ensures SettleFill(z, t, mid, side, s, f).Ok? <==>
      && f.maker in s.accounts
      && FillFits(t, side, s, f)
      && var a := Unlisted(mid, s.accounts[f.maker], f);
         (BorshSize(z, a) + NewEntries(z, t, side, a)) * z.byteCost <= a.storageBalance
  {
    if f.maker in s.accounts {
      var a := Unlisted(mid, s.accounts[f.maker], f);
      FillUnfolds(z, t, mid, side, s, f);
      hide SettleFill, FillFits, BorshSize, CreditMaker, NewEntries, Unlisted;
      if FillFits(t, side, s, f) {
        CreditMakerFits(t, mid, side, s, f);
        CreditMakerSize(z, t, side, a, f);
      }
    }
  }

  /** The maker phase gives every account exactly the proceeds of its own fills, whatever their order. */
  lemma {:induction false} MakersAreFolded(z: Sizes, t: Terms, mid: MarketId, side: Side, accounts: Accounts, fills: seq<Fill>,
                                           a: AccountId, token: Token)
    requires SettleMakers(z, t, mid, side, accounts, fills).Ok?
    ensures var s := SettleMakers(z, t, mid, side, accounts, fills).value;
      && (a in s.accounts <==> a in accounts)
      && BalanceAt(s.accounts, a, token) == BalanceAt(accounts, a, token) + Earned(t, side, fills, a, token)
      && s.base == TotalQty(fills) * t.lots.base
      && s.quote == TotalQuote(fills)
      && s.rebate == TotalRebate(t.makerRate, fills)
  {
    hide Covered, SettleFill;
    if fills != [] {
      var s := SettleMakers(z, t, mid, side, accounts, Init(fills)).value;
      MakersAreFolded(z, t, mid, side, accounts, Init(fills), a, token);
      SettleFillEffect(z, t, mid, side, s, Last(fills), token);
      Distribute(TotalQty(Init(fills)), Last(fills).qty, t.lots.base);
    }
  }

  lemma {:induction false} MakersTotal(z: Sizes, t: Terms, mid: MarketId, side: Side, accounts: Accounts, fills: seq<Fill>, token: Token)
    requires SettleMakers(z, t, mid, side, accounts, fills).Ok?
    ensures TotalBalance(SettleMakers(z, t, mid, side, accounts, fills).value.accounts, token)
         == TotalBalance(accounts, token) + MakersReceive(t, side, fills, token)
  {
    hide Covered, SettleFill;
    if fills != [] {
      var f := Last(fills);
      var s := SettleMakers(z, t, mid, side, accounts, Init(fills)).value;
      var r := SettleMakers(z, t, mid, side, accounts, fills).value;
      MakersTotal(z, t, mid, side, accounts, Init(fills), token);
      SettleFillEffect(z, t, mid, side, s, f, token);
      TotalBalanceUpdate(s.accounts, f.maker, r.accounts[f.maker], token);
      Distribute(TotalQty(Init(fills)), f.qty, t.lots.base);
    }
  }

  /** An error in a prefix of the fills is the error of the whole phase. */
  lemma {:induction false} FirstErrorWins(z: Sizes, t: Terms, mid: MarketId, side: Side, accounts: Accounts, fills: seq<Fill>, k: nat)
    requires k <= |fills|
    requires SettleMakers(z, t, mid, side, accounts, fills[..k]).Err?
    ensures SettleMakers(z, t, mid, side, accounts, fills) == SettleMakers(z, t, mid, side, accounts, fills[..k])
    decreases |fills| - k
  {
    if k == |fills| {
      assert fills[..k] == fills;
    } else {
      assert Init(fills[..k + 1]) == fills[..k];
      FirstErrorWins(z, t, mid, side, accounts, fills, k + 1);
    }
  }

  // ---------- What every account keeps ----------

  ghost predicate AllCovered(z: Sizes, accounts: Accounts) {
    forall a :: a in accounts ==> Covered(z, accounts[a])
  }

  /** Every listed market exists, lists at least one order, and no more than its cap allows. */
  ghost predicate ShapesOk(accounts: Accounts, caps: map<MarketId, nat>) {
    forall a, mid :: a in accounts && mid in accounts[a].openOrders ==>
      mid in caps && IndexShape(accounts[a], mid, caps[mid])
  }

  lemma ShapeUpdate(accounts: Accounts, caps: map<MarketId, nat>, a: AccountId, after: VAccount)
    requires ShapesOk(accounts, caps)
    requires forall mid :: mid in after.openOrders ==> mid in caps && IndexShape(after, mid, caps[mid])
    ensures ShapesOk(accounts[a := after], caps)
  {
  }

  lemma ShapeOfOne(accounts: Accounts, caps: map<MarketId, nat>, a: AccountId, mid: MarketId)
    requires ShapesOk(accounts, caps)
    requires a in accounts && mid in accounts[a].openOrders
    ensures mid in caps && IndexShape(accounts[a], mid, caps[mid])
  {
  }

  lemma RemoveKeepsShapes(accounts: Accounts, caps: map<MarketId, nat>, a: AccountId, after: VAccount, mid: MarketId, id: OrderId)
    requires ShapesOk(accounts, caps)
    requires a in accounts
    requires after.openOrders == RemoveOrderInfo(accounts[a], mid, id).openOrders || after.openOrders == accounts[a].openOrders
    ensures ShapesOk(accounts[a := after], caps)
  {
    forall other | other in after.openOrders
      ensures other in caps && IndexShape(after, other, caps[other])
    {
      assert other in accounts[a].openOrders;
      ShapeOfOne(accounts, caps, a, other);
      RemoveKeepsShape(accounts[a], mid, id, other, caps[other]);
    }
    ShapeUpdate(accounts, caps, a, after);
  }

  lemma {:induction false} MakersKeepAccounts(z: Sizes, t: Terms, mid: MarketId, side: Side, accounts: Accounts, fills: seq<Fill>,
                                              caps: map<MarketId, nat>)
    requires SettleMakers(z, t, mid, side, accounts, fills).Ok?
    requires AllCovered(z, accounts) && ShapesOk(accounts, caps)
    ensures var after := SettleMakers(z, t, mid, side, accounts, fills).value.accounts;
      && AllCovered(z, after) && ShapesOk(after, caps) && SameDeposits(accounts, after)
  {
    hide Covered, SettleFill;
    if fills != [] {
      var f := Last(fills);
      var s := SettleMakers(z, t, mid, side, accounts, Init(fills)).value;
      var r := SettleMakers(z, t, mid, side, accounts, fills).value;
      MakersKeepAccounts(z, t, mid, side, accounts, Init(fills), caps);
      SettleFillEffect(z, t, mid, side, s, f, t.quoteToken);
      RemoveKeepsShapes(s.accounts, caps, f.maker, r.accounts[f.maker], mid, f.makerOrder);
    }
  }

  /** After the maker phase the book and the lists still agree, and no list of another market moved. */
  lemma {:induction false} MakersKeepIndex(z: Sizes, t: Terms, mid: MarketId, side: Side, accounts: Accounts, fills: seq<Fill>,
                                           taker: AccountId, limit: Option<nat>, b: Book)
    requires BookOk(b) && IndexAgrees(accounts, mid, b)
    requires FillsOk(t.lots, taker, side, limit, Resting(b, Opposite(side)), fills)
    requires SettleMakers(z, t, mid, side, accounts, fills).Ok?
    ensures var s := SettleMakers(z, t, mid, side, accounts, fills).value;
      var c := WithResting(b, Opposite(side), AfterFills(Resting(b, Opposite(side)), fills));
      && BookOk(c) && IndexAgrees(s.accounts, mid, c) && SameElsewhere(accounts, s.accounts, mid)
      && (forall id :: BookGet(b, id).None? ==> BookGet(c, id).None?)
  {
    hide Covered, SettleFill;
    var opp := Opposite(side);
    if fills != [] {
      var f := Last(fills);
      var s := SettleMakers(z, t, mid, side, accounts, Init(fills)).value;
      var r := SettleMakers(z, t, mid, side, accounts, fills).value;
      var c0 := WithResting(b, opp, AfterFills(Resting(b, opp), Init(fills)));
      var c := WithResting(b, opp, AfterFills(Resting(b, opp), fills));
      MakersKeepIndex(z, t, mid, side, accounts, Init(fills), taker, limit, b);
      SettleFillEffect(z, t, mid, side, s, f, t.quoteToken);
      assert c == WithResting(c0, opp, Reduce(Resting(c0, opp), f.makerOrder, f.qty));
      BookGetSide(c0, opp, f.makerOrder);
      ReduceBook(c0, opp, f.makerOrder, f.qty);
      if f.removed {
        DropOrder(s.accounts, f.maker, r.accounts[f.maker], mid, f.makerOrder, c0, c);
      } else {
        SameListsUpdate(s.accounts, f.maker, r.accounts[f.maker]);
        AgreesWithSameLists(s.accounts, r.accounts, mid, c0);
        SameOwners(r.accounts, mid, c0, c, f.makerOrder);
      }
    }
  }

  lemma SameOwners(accounts: Accounts, mid: MarketId, b: Book, c: Book, id: OrderId)
    requires IndexAgrees(accounts, mid, b)
    requires forall other :: other != id ==> BookGet(c, other) == BookGet(b, other)
    requires OwnerOf(c, id) == OwnerOf(b, id)
    ensures IndexAgrees(accounts, mid, c)
  {
    forall a, i
      ensures Lists(accounts, a, mid, i) <==> OwnerOf(c, i) == Some(a)
    {
      assert Lists(accounts, a, mid, i) <==> OwnerOf(b, i) == Some(a);
      if i != id {
        assert BookGet(c, i) == BookGet(b, i);
      }
    }
  }

  lemma KnownMakerSettles(z: Sizes, t: Terms, mid: MarketId, side: Side, s: Settled, f: Fill)
    requires f.maker in s.accounts
    ensures var r := SettleFill(z, t, mid, side, s, f); r.Err? ==> !IsBug(r.error)
  {
    hide Covered;
  }

  /** The maker of every fill is found: the `unwrap` in the loop cannot fail. */
  lemma {:induction false} MakersAreFound(z: Sizes, t: Terms, mid: MarketId, side: Side, accounts: Accounts, fills: seq<Fill>,
                                          taker: AccountId, limit: Option<nat>, b: Book)
    requires BookOk(b) && IndexAgrees(accounts, mid, b)
    requires FillsOk(t.lots, taker, side, limit, Resting(b, Opposite(side)), fills)
    ensures var r := SettleMakers(z, t, mid, side, accounts, fills); r.Err? ==> !IsBug(r.error)
  {
    hide Covered, SettleFill, IsBug;
    if fills == [] {
    } else if SettleMakers(z, t, mid, side, accounts, Init(fills)).Err? {
      MakersAreFound(z, t, mid, side, accounts, Init(fills), taker, limit, b);
    } else {
      MakersKeepIndex(z, t, mid, side, accounts, Init(fills), taker, limit, b);
      var opp, f := Opposite(side), Last(fills);
      var s := SettleMakers(z, t, mid, side, accounts, Init(fills)).value;
      var c := WithResting(b, opp, AfterFills(Resting(b, opp), Init(fills)));
      BookGetSide(c, opp, f.makerOrder);
      assert Lists(s.accounts, f.maker, mid, f.makerOrder) <==> OwnerOf(c, f.makerOrder) == Some(f.maker);
      KnownMakerSettles(z, t, mid, side, s, f);
    }
  }

  // ---------- The fee split ----------

  /** Rebates floored fill by fill never exceed the taker fee floored once on the total. */
  lemma {:induction false} RebatesWithinFee(t: Terms, fills: seq<Fill>)
    requires t.makerRate <= t.takerRate
    ensures TotalRebate(t.makerRate, fills) <= FeeOn(t.makerRate, TotalQuote(fills)) <= FeeOn(t.takerRate, TotalQuote(fills))
  {
    if fills != [] {
      RebatesWithinFee(t, Init(fills));
      FeeSplit(t.makerRate, TotalQuote(Init(fills)), Last(fills).quotePaid);
    }
    FeeMonotone(t.makerRate, t.takerRate, TotalQuote(fills), TotalQuote(fills));
  }

  /** The taker fee is split completely, whether or not the referrer could be paid. */
  lemma FeeSplitIsTotal(z: Sizes, t: Terms, mid: MarketId, side: Side, accounts: Accounts, fills: seq<Fill>,
                        referrer: Option<AccountId>, feesAccrued: nat)
    requires SettleTrade(z, t, mid, side, accounts, fills, referrer, feesAccrued).Ok?
    ensures var tr := SettleTrade(z, t, mid, side, accounts, fills, referrer, feesAccrued).value;
      && tr.fee == FeeOn(t.takerRate, TotalQuote(fills))
      && tr.rebate == TotalRebate(t.makerRate, fills)
      && tr.fee == tr.rebate + tr.referral + (tr.fees - feesAccrued)
      && feesAccrued <= tr.fees
      && (tr.referral == 0 || (tr.referral == tr.fee - tr.rebate && tr.fees == feesAccrued))
      && tr.base == TotalQty(fills) * t.lots.base
      && tr.quote == TotalQuote(fills)
  {
    MakersAreFolded(z, t, mid, side, accounts, fills, AccountId(""), t.quoteToken);
  }

  lemma ReferrerNeverBugs(z: Sizes, quote: Token, accounts: Accounts, referrer: Option<AccountId>, fee: nat)
    ensures match SettleReferrer(z, quote, accounts, referrer, fee)
      case Ok(after) => after.1 <= fee
      case Err(e) => !IsBug(e)
  {
    hide Covered;
  }

  /** No subtraction of the split underflows and its assertion cannot fire. */
  lemma FeeSplitNeverFails(z: Sizes, t: Terms, mid: MarketId, side: Side, accounts: Accounts, fills: seq<Fill>,
                           referrer: Option<AccountId>, feesAccrued: nat, taker: AccountId, limit: Option<nat>, b: Book)
    requires TermsOk(t)
    requires BookOk(b) && IndexAgrees(accounts, mid, b)
    requires FillsOk(t.lots, taker, side, limit, Resting(b, Opposite(side)), fills)
    ensures var r := SettleTrade(z, t, mid, side, accounts, fills, referrer, feesAccrued);
      && (r.Err? ==> !IsBug(r.error))
      && (r.Ok? ==> r.value.fee <= r.value.quote)
  {
    hide SettleMakers, SettleReferrer, FillsOk, BookOk, IndexAgrees, TotalRebate, TotalQuote;
    MakersAreFound(z, t, mid, side, accounts, fills, taker, limit, b);
    if SettleMakers(z, t, mid, side, accounts, fills).Ok? {
      var s := SettleMakers(z, t, mid, side, accounts, fills).value;
      MakersAreFolded(z, t, mid, side, accounts, fills, taker, t.quoteToken);
      RebatesWithinFee(t, fills);
      ReferrerNeverBugs(z, t.quoteToken, s.accounts, referrer, FeeOn(t.takerRate, s.quote) - s.rebate);
      FeeWithin(t.takerRate, TotalQuote(fills));
    }
  }

  /** The referrer phase changes nothing, or credits one registered account and saves it. */
  lemma ReferrerCases(z: Sizes, quote: Token, accounts: Accounts, referrer: Option<AccountId>, fee: nat, token: Token)
    requires SettleReferrer(z, quote, accounts, referrer, fee).Ok?
    ensures var (after, paid) := SettleReferrer(z, quote, accounts, referrer, fee).value;
      || (after == accounts && paid == 0)
      || (&& paid == fee
          && referrer.Some? && referrer.value in accounts && referrer.value in after
          && after == accounts[referrer.value := after[referrer.value]]
          && Covered(z, after[referrer.value])
          && after[referrer.value].openOrders == accounts[referrer.value].openOrders
          && after[referrer.value].storageBalance == accounts[referrer.value].storageBalance
          && Balance(after[referrer.value], token)
             == Balance(accounts[referrer.value], token) + (if token == quote then paid else 0))
  {
    hide Covered;
  }

  /** The referrer is paid, and then the whole fee, exactly when it is registered and has the storage for it. */
  lemma ReferrerIsPaidExactly(z: Sizes, quote: Token, accounts: Accounts, referrer: AccountId, fee: nat)
    requires SettleReferrer(z, quote, accounts, Some(referrer), fee).Ok?
    ensures var (after, paid) := SettleReferrer(z, quote, accounts, Some(referrer), fee).value;
      && (paid == fee || paid == 0)
      && (paid > 0 <==>
            && fee > 0 && referrer in accounts
            && BorshSize(z, accounts[referrer]) * z.byteCost
               + (if quote in accounts[referrer].balances then 0 else z.entrySize(quote)) * z.byteCost <= accounts[referrer].storageBalance)
  {
    if referrer in accounts {
      var a := accounts[referrer];
      var entry := if quote in a.balances then 0 else z.entrySize(quote);
      DepositSize(z, a, quote, fee);
      SizeAtLeastAccount(z, a);
      Distribute(BorshSize(z, a), entry, z.byteCost);
      hide BorshSize;
    }
  }

  /** What the referrer phase does to totals and lists. */
  lemma ReferrerEffect(z: Sizes, quote: Token, accounts: Accounts, referrer: Option<AccountId>, fee: nat, token: Token,
                       caps: map<MarketId, nat>)
    requires SettleReferrer(z, quote, accounts, referrer, fee).Ok?
    requires AllCovered(z, accounts) && ShapesOk(accounts, caps)
    ensures var (after, paid) := SettleReferrer(z, quote, accounts, referrer, fee).value;
      && AllCovered(z, after) && ShapesOk(after, caps)
      && SameDeposits(accounts, after)
      && SameLists(accounts, after)
      && TotalBalance(after, token) == TotalBalance(accounts, token) + (if token == quote then paid else 0)
  {
    hide Covered, SettleReferrer;
    var (after, paid) := SettleReferrer(z, quote, accounts, referrer, fee).value;
    ReferrerCases(z, quote, accounts, referrer, fee, token);
    if after != accounts {
      TotalBalanceUpdate(accounts, referrer.value, after[referrer.value], token);
      SameListsUpdate(accounts, referrer.value, after[referrer.value]);
      RemoveKeepsShapes(accounts, caps, referrer.value, after[referrer.value], MarketId(0), OrderId(0));
    } else if paid != 0 {
      ReferrerCases(z, quote, accounts, referrer, fee, quote);
    }
  }
}

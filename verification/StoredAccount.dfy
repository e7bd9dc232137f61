/** Accounts as stored: token balances, the index of open orders and the storage lock. */
module StoredAccount {
  import opened Arithmetic
  import opened Outcomes
  import opened Sums
  import opened Types

  type Balances = map<Token, Amount>
  type OpenOrders = map<MarketId, map<OrderId, OrderInfo>>

  /** An account as it is stored. */
  datatype VAccount = VAccount(balances: Balances, openOrders: OpenOrders, storageBalance: nat)

  const EMPTY_ACCOUNT := VAccount(map[], map[], 0)

  // Byte sizes of storage.rs.
  const ACCOUNT_SIZE: nat := 134
  const MARKET_SIZE: nat := 32 + (64 + 16 + 64 + 16)
  const ORDER_SIZE: nat := 16 + 8 + 93

  /** Storage prices and the serialised sizes that the SDK computes. */
  datatype Sizes = Sizes(byteCost: nat, mapOverhead: nat, setOverhead: nat, entrySize: Token -> nat)

  // ---------- Balances ----------

  function Balance(a: VAccount, t: Token): nat {
    if t in a.balances then a.balances[t] else 0
  }

  function Deposit(a: VAccount, t: Token, amount: nat): Result<VAccount> {
    var total :- U128(Balance(a, t) + amount);
    Ok(a.(balances := a.balances[t := total]))
  }

  /** An entry drained to zero disappears; a missing entry cannot be drained, not even by zero. */
  function Withdraw(a: VAccount, t: Token, amount: nat): Result<VAccount> {
    if t !in a.balances || a.balances[t] < amount then Err(InsufficientBalance)
    else if a.balances[t] == amount then Ok(a.(balances := a.balances - {t}))
    else Ok(a.(balances := a.balances[t := a.balances[t] - amount]))
  }

  lemma DepositEffect(a: VAccount, t: Token, amount: nat, u: Token)
    requires Deposit(a, t, amount).Ok?
    ensures var b := Deposit(a, t, amount).value;
      && Balance(b, u) == Balance(a, u) + (if u == t then amount else 0)
      && b.openOrders == a.openOrders
      && b.storageBalance == a.storageBalance
  {
  }

  lemma WithdrawEffect(a: VAccount, t: Token, amount: nat, u: Token)
    requires Withdraw(a, t, amount).Ok?
    ensures var b := Withdraw(a, t, amount).value;
      && Balance(b, u) == Balance(a, u) - (if u == t then amount else 0)
      && b.openOrders == a.openOrders
      && b.storageBalance == a.storageBalance
  {
  }

  /** Depositing fails only on overflow; a missing entry, or one too small, cannot be drawn on, not even for nothing. */
  lemma BalancesMoveExactly(a: VAccount, t: Token, amount: nat)
    ensures Deposit(a, t, amount).Ok? <==> Balance(a, t) + amount < TWO_128
    ensures Deposit(a, t, amount).Ok? ==> Deposit(a, t, amount).value.balances.Keys == a.balances.Keys + {t}
    ensures Withdraw(a, t, amount).Ok? <==> t in a.balances && amount <= a.balances[t]
    ensures Withdraw(a, t, amount).Ok? ==>
      Withdraw(a, t, amount).value.balances.Keys == (if a.balances[t] == amount then a.balances.Keys - {t} else a.balances.Keys)
  {
  }

  // ---------- Open-order index ----------

  predicate Has(a: VAccount, mid: MarketId, id: OrderId) {
    mid in a.openOrders && id in a.openOrders[mid]
  }

  function SaveNewOrderInfo(a: VAccount, mid: MarketId, id: OrderId, info: OrderInfo, cap: nat): Result<VAccount> {
    if mid in a.openOrders then
      :- Need(|a.openOrders[mid]| < cap, ExceededOrderLimit);
      Ok(a.(openOrders := a.openOrders[mid := a.openOrders[mid][id := info]]))
    else
      Ok(a.(openOrders := a.openOrders[mid := map[id := info]]))
  }

  /** Forgets an order if it is listed; a market left without orders is forgotten too. */
  function RemoveOrderInfo(a: VAccount, mid: MarketId, id: OrderId): VAccount {
    if Has(a, mid, id) then
      var rest := a.openOrders[mid] - {id};
      a.(openOrders := if rest == map[] then a.openOrders - {mid} else a.openOrders[mid := rest])
    else a
  }

  function ListedIds(a: VAccount, mid: MarketId): set<OrderId> {
    if mid in a.openOrders then a.openOrders[mid].Keys else {}
  }

  function RemoveAllOrderInfos(a: VAccount, mid: MarketId): VAccount {
    a.(openOrders := a.openOrders - {mid})
  }

  /** No empty order map is kept, and no market lists more orders than `cap` allows. */
  predicate IndexShape(a: VAccount, mid: MarketId, cap: nat) {
    mid in a.openOrders ==> 1 <= |a.openOrders[mid]| <= (if cap < 1 then 1 else cap)
  }

  lemma SaveKeepsShape(a: VAccount, mid: MarketId, id: OrderId, info: OrderInfo, cap: nat)
    requires IndexShape(a, mid, cap)
    requires !Has(a, mid, id)
    requires SaveNewOrderInfo(a, mid, id, info, cap).Ok?
    ensures IndexShape(SaveNewOrderInfo(a, mid, id, info, cap).value, mid, cap)
  {
    if mid in a.openOrders {
      var m := a.openOrders[mid];
      assert m[id := info].Keys == m.Keys + {id};
    }
  }

  lemma RemoveKeepsShape(a: VAccount, mid: MarketId, id: OrderId, other: MarketId, cap: nat)
    requires IndexShape(a, other, cap)
    ensures IndexShape(RemoveOrderInfo(a, mid, id), other, cap)
  {
    if Has(a, mid, id) {
      var rest := a.openOrders[mid] - {id};
      assert rest.Keys == a.openOrders[mid].Keys - {id};
      assert |rest| == 0 ==> rest == map[];
    }
  }

  lemma RemoveHas(a: VAccount, mid: MarketId, id: OrderId, mid': MarketId, id': OrderId)
    ensures Has(RemoveOrderInfo(a, mid, id), mid', id') <==> Has(a, mid', id') && (mid', id') != (mid, id)
  {
    if Has(a, mid, id) && mid' == mid && Has(a, mid', id') && id' != id {
      assert id' in a.openOrders[mid] - {id};
    }
  }

  /** Saving a fresh id and removing it again leaves the index as it was. */
  lemma SaveThenRemove(a: VAccount, mid: MarketId, id: OrderId, info: OrderInfo, cap: nat)
    requires !Has(a, mid, id)
    requires mid in a.openOrders ==> a.openOrders[mid] != map[]
    requires SaveNewOrderInfo(a, mid, id, info, cap).Ok?
    ensures RemoveOrderInfo(SaveNewOrderInfo(a, mid, id, info, cap).value, mid, id) == a
  {
    var b := SaveNewOrderInfo(a, mid, id, info, cap).value;
    if mid in a.openOrders {
      assert b.openOrders[mid] - {id} == a.openOrders[mid];
      assert a.openOrders[mid := a.openOrders[mid]] == a.openOrders;
    } else {
      assert b.openOrders[mid] - {id} == map[];
      assert b.openOrders - {mid} == a.openOrders;
    }
  }

  // ---------- Storage ----------

  ghost function EntrySizes(z: Sizes, b: Balances): map<Token, int> {
    map t | t in b :: z.entrySize(t)
  }

  ghost function OrderCounts(o: OpenOrders): map<MarketId, int> {
    map mid | mid in o :: |o[mid]|
  }

  ghost function BorshSize(z: Sizes, a: VAccount): int {
    ACCOUNT_SIZE
    + (z.mapOverhead + Sum(EntrySizes(z, a.balances)))
    + |a.openOrders| * (z.setOverhead + MARKET_SIZE)
    + Sum(OrderCounts(a.openOrders)) * ORDER_SIZE
  }

  ghost function Locked(z: Sizes, a: VAccount): int {
    BorshSize(z, a) * z.byteCost
  }

  ghost predicate Covered(z: Sizes, a: VAccount) {
    Locked(z, a) <= a.storageBalance
  }

  lemma SizeAtLeastAccount(z: Sizes, a: VAccount)
    ensures BorshSize(z, a) >= ACCOUNT_SIZE
    ensures Locked(z, a) >= ACCOUNT_SIZE * z.byteCost
  {
    SumNonNegative(EntrySizes(z, a.balances));
    SumNonNegative(OrderCounts(a.openOrders));
    MulMonotone(0, |a.openOrders|, z.setOverhead + MARKET_SIZE);
    MulMonotone(ACCOUNT_SIZE, BorshSize(z, a), z.byteCost);
  }

  lemma DepositSize(z: Sizes, a: VAccount, t: Token, amount: nat)
    requires Deposit(a, t, amount).Ok?
    ensures BorshSize(z, Deposit(a, t, amount).value)
         == BorshSize(z, a) + (if t in a.balances then 0 else z.entrySize(t))
  {
    var b := Deposit(a, t, amount).value;
    assert EntrySizes(z, b.balances) == EntrySizes(z, a.balances)[t := z.entrySize(t)];
    SumUpdate(EntrySizes(z, a.balances), t, z.entrySize(t));
  }

  /** A withdrawal frees the bytes of an entry that it drains, and no others. */
  lemma WithdrawSize(z: Sizes, a: VAccount, t: Token, amount: nat)
    requires Withdraw(a, t, amount).Ok?
    ensures BorshSize(z, Withdraw(a, t, amount).value)
         == BorshSize(z, a) - (if a.balances[t] == amount then z.entrySize(t) else 0)
  {
    var b := Withdraw(a, t, amount).value;
    if a.balances[t] == amount {
      SumPick(EntrySizes(z, a.balances), t);
      assert EntrySizes(z, b.balances) == EntrySizes(z, a.balances) - {t};
    } else {
      SumUpdate(EntrySizes(z, a.balances), t, z.entrySize(t));
      assert EntrySizes(z, b.balances) == EntrySizes(z, a.balances)[t := z.entrySize(t)];
    }
  }

  lemma SmallerIsCovered(z: Sizes, a: VAccount, b: VAccount)
    requires Covered(z, a)
    requires BorshSize(z, b) <= BorshSize(z, a) && b.storageBalance == a.storageBalance
    ensures Covered(z, b)
  {
    hide BorshSize;
    SizeAtLeastAccount(z, b);
    SizeAtLeastAccount(z, a);
    MulMonotone(BorshSize(z, b), BorshSize(z, a), z.byteCost);
  }

  lemma DropMarketCounts(o: OpenOrders, mid: MarketId)
    requires mid in o
    ensures |o - {mid}| <= |o|
    ensures Sum(OrderCounts(o - {mid})) == Sum(OrderCounts(o)) - |o[mid]|
  {
    SumPick(OrderCounts(o), mid);
    assert OrderCounts(o - {mid}) == OrderCounts(o) - {mid};
    assert (o - {mid}).Keys == o.Keys - {mid};
  }

  lemma ReplaceMarketCounts(o: OpenOrders, mid: MarketId, orders: map<OrderId, OrderInfo>)
    requires mid in o
    ensures |o[mid := orders]| == |o|
    ensures Sum(OrderCounts(o[mid := orders])) == Sum(OrderCounts(o)) - |o[mid]| + |orders|
  {
    SumUpdate(OrderCounts(o), mid, |orders|);
    assert OrderCounts(o[mid := orders]) == OrderCounts(o)[mid := |orders|];
    assert o[mid := orders].Keys == o.Keys;
  }

  lemma RemoveCounts(a: VAccount, mid: MarketId, id: OrderId)
    requires Has(a, mid, id)
    ensures var b := RemoveOrderInfo(a, mid, id);
      && |b.openOrders| <= |a.openOrders|
      && Sum(OrderCounts(b.openOrders)) == Sum(OrderCounts(a.openOrders)) - 1
  {
    var rest := a.openOrders[mid] - {id};
    assert rest.Keys == a.openOrders[mid].Keys - {id};
    assert |rest| == |a.openOrders[mid]| - 1;
    DropMarketCounts(a.openOrders, mid);
    ReplaceMarketCounts(a.openOrders, mid, rest);
  }

  /** How the size follows the index when the balances stay: per market and per order. */
  lemma SizeByIndex(z: Sizes, a: VAccount, b: VAccount, markets: int, orders: int)
    requires a.balances == b.balances
    requires |b.openOrders| == |a.openOrders| + markets
    requires Sum(OrderCounts(b.openOrders)) == Sum(OrderCounts(a.openOrders)) + orders
    ensures BorshSize(z, b) == BorshSize(z, a) + markets * (z.setOverhead + 192) + orders * 117
  {
    hide OrderCounts, EntrySizes;
    var each := z.setOverhead + MARKET_SIZE;
    assert (|a.openOrders| + markets) * each == |a.openOrders| * each + markets * each;
  }

  lemma SaveCounts(a: VAccount, mid: MarketId, id: OrderId, info: OrderInfo, cap: nat)
    requires !Has(a, mid, id)
    requires SaveNewOrderInfo(a, mid, id, info, cap).Ok?
    ensures var b := SaveNewOrderInfo(a, mid, id, info, cap).value;
      && |b.openOrders| == |a.openOrders| + (if mid in a.openOrders then 0 else 1)
      && Sum(OrderCounts(b.openOrders)) == Sum(OrderCounts(a.openOrders)) + 1
  {
    if mid in a.openOrders {
      OneMoreOrder(a.openOrders[mid], id, info);
      ReplaceMarketCounts(a.openOrders, mid, a.openOrders[mid][id := info]);
    } else {
      OneMoreOrder(map[], id, info);
      assert map[][id := info] == map[id := info];
      AddMarketCounts(a.openOrders, mid, map[id := info]);
      OneMoreMarket(a.openOrders, mid, map[id := info]);
    }
    hide OrderCounts;
  }

  lemma OneMoreOrder(orders: map<OrderId, OrderInfo>, id: OrderId, info: OrderInfo)
    requires id !in orders
    ensures |orders[id := info]| == |orders| + 1
  {
    assert orders[id := info].Keys == orders.Keys + {id};
  }

  lemma AddMarketCounts(o: OpenOrders, mid: MarketId, orders: map<OrderId, OrderInfo>)
    requires mid !in o
    ensures Sum(OrderCounts(o[mid := orders])) == Sum(OrderCounts(o)) + |orders|
  {
    var counts, n: int := OrderCounts(o), |orders|;
    assert OrderCounts(o[mid := orders]) == counts[mid := n];
    assert mid !in counts;
    hide OrderCounts;
    SumUpdate(counts, mid, n);
  }

  lemma OneMoreMarket(o: OpenOrders, mid: MarketId, orders: map<OrderId, OrderInfo>)
    requires mid !in o
    ensures |o[mid := orders]| == |o| + 1
  {
    assert o[mid := orders].Keys == o.Keys + {mid};
  }

  /** Listing an order reserves 16 + 8 + 93 bytes for it, and 32 + 160 with the set's overhead for a market's first. */
  lemma SaveSize(z: Sizes, a: VAccount, mid: MarketId, id: OrderId, info: OrderInfo, cap: nat)
    requires !Has(a, mid, id)
    requires SaveNewOrderInfo(a, mid, id, info, cap).Ok?
    ensures BorshSize(z, SaveNewOrderInfo(a, mid, id, info, cap).value)
         == BorshSize(z, a) + 117 + (if mid in a.openOrders then 0 else z.setOverhead + 192)
  {
    SaveCounts(a, mid, id, info, cap);
    hide BorshSize, OrderCounts;
    SizeByIndex(z, a, SaveNewOrderInfo(a, mid, id, info, cap).value, if mid in a.openOrders then 0 else 1, 1);
  }

  lemma DroppedMarket(o: OpenOrders, mid: MarketId)
    requires mid in o
    ensures |o - {mid}| == |o| - 1
  {
    assert (o - {mid}).Keys == o.Keys - {mid};
  }

  lemma RemoveCountsExactly(a: VAccount, mid: MarketId, id: OrderId)
    requires Has(a, mid, id)
    ensures var b := RemoveOrderInfo(a, mid, id);
      && b.balances == a.balances
      && |b.openOrders| == |a.openOrders| - (if a.openOrders[mid].Keys == {id} then 1 else 0)
      && Sum(OrderCounts(b.openOrders)) == Sum(OrderCounts(a.openOrders)) - 1
  {
    RemoveCounts(a, mid, id);
    DroppedMarket(a.openOrders, mid);
    var rest := a.openOrders[mid] - {id};
    assert rest.Keys == a.openOrders[mid].Keys - {id};
    if rest == map[] {
      assert a.openOrders[mid].Keys == rest.Keys + {id};
    } else {
      assert rest.Keys != {};
    }
    assert a.openOrders[mid := rest].Keys == a.openOrders.Keys;
  }

  /** Forgetting a listed order frees exactly these bytes. */
  lemma RemoveSize(z: Sizes, a: VAccount, mid: MarketId, id: OrderId)
    requires Has(a, mid, id)
    ensures BorshSize(z, RemoveOrderInfo(a, mid, id))
         == BorshSize(z, a) - 117 - (if a.openOrders[mid].Keys == {id} then z.setOverhead + 192 else 0)
  {
    RemoveCountsExactly(a, mid, id);
    hide BorshSize, OrderCounts, RemoveOrderInfo;
    SizeByIndex(z, a, RemoveOrderInfo(a, mid, id), if a.openOrders[mid].Keys == {id} then -1 else 0, -1);
  }

  /** Forgetting a market frees the bytes of its orders and of the market. */
  lemma RemoveAllSize(z: Sizes, a: VAccount, mid: MarketId)
    requires mid in a.openOrders
    ensures BorshSize(z, RemoveAllOrderInfos(a, mid)) == BorshSize(z, a) - |a.openOrders[mid]| * 117 - (z.setOverhead + 192)
  {
    DropMarketCounts(a.openOrders, mid);
    DroppedMarket(a.openOrders, mid);
    hide BorshSize, OrderCounts;
    SizeByIndex(z, a, RemoveAllOrderInfos(a, mid), -1, 0 - |a.openOrders[mid]|);
  }

  /** An account without balances and orders takes 134 bytes and an empty map. */
  lemma EmptySize(z: Sizes, a: VAccount)
    requires a.balances == map[] && a.openOrders == map[]
    ensures BorshSize(z, a) == 134 + z.mapOverhead
  {
    SumZero(EntrySizes(z, a.balances));
    SumZero(OrderCounts(a.openOrders));
  }

  /** An order is listed unless its market is at its cap, and then it is remembered with its size and time. */
  lemma SaveSucceedsExactly(a: VAccount, mid: MarketId, id: OrderId, info: OrderInfo, cap: nat)
    ensures SaveNewOrderInfo(a, mid, id, info, cap).Ok? <==> (mid in a.openOrders ==> |a.openOrders[mid]| < cap)
    ensures var r := SaveNewOrderInfo(a, mid, id, info, cap);
      r.Ok? ==>
        && Has(r.value, mid, id) && r.value.openOrders[mid][id] == info
        && r.value.balances == a.balances && r.value.storageBalance == a.storageBalance
        && forall m, i :: (m, i) != (mid, id) ==>
             (Has(r.value, m, i) <==> Has(a, m, i)) && (Has(a, m, i) ==> r.value.openOrders[m][i] == a.openOrders[m][i])
  {
  }

  /** Forgetting one order leaves what is remembered of the others, the balances and the deposit. */
  lemma RemoveKeepsOthers(a: VAccount, mid: MarketId, id: OrderId)
    ensures var b := RemoveOrderInfo(a, mid, id);
      && b.balances == a.balances && b.storageBalance == a.storageBalance
      && forall m, i :: Has(b, m, i) ==> Has(a, m, i) && b.openOrders[m][i] == a.openOrders[m][i]
  {
  }

  /** Forgetting a listed order frees at least the bytes reserved for one order. */
  lemma RemoveFrees(z: Sizes, a: VAccount, mid: MarketId, id: OrderId)
    requires Has(a, mid, id)
    ensures BorshSize(z, RemoveOrderInfo(a, mid, id)) <= BorshSize(z, a) - ORDER_SIZE
  {
    RemoveCounts(a, mid, id);
    MulMonotone(|RemoveOrderInfo(a, mid, id).openOrders|, |a.openOrders|, z.setOverhead + MARKET_SIZE);
  }

  lemma RemoveAllCounts(a: VAccount, mid: MarketId)
    ensures var b := RemoveAllOrderInfos(a, mid);
      && |b.openOrders| <= |a.openOrders|
      && Sum(OrderCounts(b.openOrders)) == Sum(OrderCounts(a.openOrders)) - |ListedIds(a, mid)|
  {
    hide OrderCounts;
    if mid in a.openOrders {
      DropMarketCounts(a.openOrders, mid);
      assert |ListedIds(a, mid)| == |a.openOrders[mid]|;
    } else {
      assert a.openOrders - {mid} == a.openOrders;
    }
  }

  /** Forgetting all orders of a market frees the bytes reserved for each of them. */
  lemma RemoveAllFrees(z: Sizes, a: VAccount, mid: MarketId)
    ensures BorshSize(z, RemoveAllOrderInfos(a, mid)) <= BorshSize(z, a) - |ListedIds(a, mid)| * ORDER_SIZE
  {
    hide OrderCounts, EntrySizes, ListedIds;
    RemoveAllCounts(a, mid);
    MulMonotone(|RemoveAllOrderInfos(a, mid).openOrders|, |a.openOrders|, z.setOverhead + MARKET_SIZE);
  }

  /** `ids` lists every element of `keys` once. */
  ghost predicate Enumerates(ids: seq<OrderId>, keys: set<OrderId>) {
    && (forall k :: k in keys <==> k in ids)
    && (forall i, j :: 0 <= i < j < |ids| ==> ids[i] != ids[j])
  }

  lemma {:induction false} EnumerationSize(ids: seq<OrderId>, keys: set<OrderId>)
    requires Enumerates(ids, keys)
    ensures |ids| == |keys|
  {
    if ids == [] {
      assert keys == {};
    } else {
      var n := |ids| - 1;
      assert ids[n] in keys;
      assert ids == ids[..n] + [ids[n]];
      EnumerationSize(ids[..n], keys - {ids[n]});
    }
  }
}

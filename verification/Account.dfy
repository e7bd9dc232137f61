/** The account object a call loads, changes in place and saves. */
module Account {
  import opened Outcomes
  import opened Sums
  import opened Types
  import opened StoredAccount

  method Enumerate(keys: set<OrderId>) returns (ids: seq<OrderId>)
    ensures Enumerates(ids, keys)
  {
    ids := [];
    var rest := keys;
    while rest != {}
      invariant forall k :: k in keys <==> k in ids || k in rest
      invariant forall k :: k in rest ==> k !in ids
      invariant forall i, j :: 0 <= i < j < |ids| ==> ids[i] != ids[j]
      decreases rest
    {
      var k :| k in rest;
      ids := ids + [k];
      rest := rest - {k};
    }
  }

  /** The account in memory: loaded from the store, changed in place, saved again. */
  class AccountV1 {
    var balances: Balances
    var openOrders: OpenOrders
    var storageBalance: nat

    constructor Load(stored: VAccount)
      ensures Stored() == stored
    {
      balances, openOrders, storageBalance := stored.balances, stored.openOrders, stored.storageBalance;
    }

    function Stored(): VAccount
      reads this
    {
      VAccount(balances, openOrders, storageBalance)
    }

    method Deposit(t: Token, amount: nat) returns (r: Result<()>)
      modifies this`balances
      ensures match StoredAccount.Deposit(old(Stored()), t, amount)
        case Ok(v) => r == Ok(()) && Stored() == v
        case Err(e) => r == Err(e) && Stored() == old(Stored())
    {
      if t in balances {
        var total :- U128(balances[t] + amount);
        balances := balances[t := total];
      } else {
        var total :- U128(amount);
        balances := balances[t := total];
      }
      return Ok(());
    }

    method Withdraw(t: Token, amount: nat) returns (r: Result<()>)
      modifies this`balances
      ensures match StoredAccount.Withdraw(old(Stored()), t, amount)
        case Ok(v) => r == Ok(()) && Stored() == v
        case Err(e) => r == Err(e) && Stored() == old(Stored())
    {
      if t !in balances {
        return Err(InsufficientBalance);
      }
      var x := balances[t];
      if x < amount {
        return Err(InsufficientBalance);
      }
      if x == amount {
        balances := balances - {t};
      } else {
        balances := balances[t := x - amount];
      }
      return Ok(());
    }

    method SaveNewOrderInfo(mid: MarketId, id: OrderId, info: OrderInfo, cap: nat) returns (r: Result<()>)
      modifies this`openOrders
      ensures match StoredAccount.SaveNewOrderInfo(old(Stored()), mid, id, info, cap)
        case Ok(v) => r == Ok(()) && Stored() == v
        case Err(e) => r == Err(e) && Stored() == old(Stored())
    {
      if mid in openOrders {
        if |openOrders[mid]| >= cap {
          return Err(ExceededOrderLimit);
        }
        openOrders := openOrders[mid := openOrders[mid][id := info]];
      } else {
        openOrders := openOrders[mid := map[id := info]];
      }
      return Ok(());
    }

    method RemoveOrderInfo(mid: MarketId, id: OrderId) returns (found: bool)
      modifies this`openOrders
      ensures found == Has(old(Stored()), mid, id)
      ensures Stored() == StoredAccount.RemoveOrderInfo(old(Stored()), mid, id)
    {
      found := false;
      if mid in openOrders && id in openOrders[mid] {
        var rest := openOrders[mid] - {id};
        if rest == map[] {
          openOrders := openOrders - {mid};
        } else {
          openOrders := openOrders[mid := rest];
        }
        found := true;
      }
    }

    /** The ids come back in the unspecified order of a hash map. */
    method RemoveAllOrderInfos(mid: MarketId) returns (ids: seq<OrderId>)
      modifies this`openOrders
      ensures Enumerates(ids, ListedIds(old(Stored()), mid))
      ensures Stored() == StoredAccount.RemoveAllOrderInfos(old(Stored()), mid)
    {
      ids := [];
      if mid in openOrders {
        var keys := openOrders[mid].Keys;
        ids := Enumerate(keys);
      } else {
        assert openOrders - {mid} == openOrders;
      }
      openOrders := openOrders - {mid};
    }

    method SizeInBytes(z: Sizes) returns (n: nat)
      ensures n == BorshSize(z, Stored())
    {
      n := ACCOUNT_SIZE + z.mapOverhead;
      var tokens := balances;
      while tokens != map[]
        invariant n + Sum(EntrySizes(z, tokens)) == ACCOUNT_SIZE + z.mapOverhead + Sum(EntrySizes(z, balances))
        decreases tokens.Keys
      {
        var t :| t in tokens;
        SumPick(EntrySizes(z, tokens), t);
        n := n + z.entrySize(t);
        assert EntrySizes(z, tokens - {t}) == EntrySizes(z, tokens) - {t};
        assert t in tokens.Keys && (tokens - {t}).Keys == tokens.Keys - {t};
        tokens := tokens - {t};
      }
      n := n + |openOrders| * (z.setOverhead + MARKET_SIZE);
      var markets := openOrders;
      var orders: nat := 0;
      while markets != map[]
        invariant orders + Sum(OrderCounts(markets)) == Sum(OrderCounts(openOrders))
        decreases markets.Keys
      {
        var mid :| mid in markets;
        SumPick(OrderCounts(markets), mid);
        orders := orders + |markets[mid]|;
        assert OrderCounts(markets - {mid}) == OrderCounts(markets) - {mid};
        assert mid in markets.Keys && (markets - {mid}).Keys == markets.Keys - {mid};
        markets := markets - {mid};
      }
      n := n + orders * ORDER_SIZE;
    }

    method IsStorageCovered(z: Sizes) returns (covered: bool)
      ensures covered == Covered(z, Stored())
    {
      var size := SizeInBytes(z);
      covered := size * z.byteCost <= storageBalance;
    }
  }
}

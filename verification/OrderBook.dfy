/** Resting orders, what they hold in escrow, and the fills that consume them. */
module OrderBook {
  import opened Arithmetic
  import opened Outcomes
  import opened Types

  datatype Order = Order(id: OrderId, owner: AccountId, price: nat, openQty: nat)

  /** Both sides, each listed best price first. */
  datatype Book = Book(bids: seq<Order>, asks: seq<Order>)

  const EMPTY_BOOK := Book([], [])

  function Opposite(side: Side): Side {
    if side == Buy then Sell else Buy
  }

  function Resting(b: Book, side: Side): seq<Order> {
    if side == Buy then b.bids else b.asks
  }

  function WithResting(b: Book, side: Side, os: seq<Order>): Book {
    if side == Buy then b.(bids := os) else b.(asks := os)
  }

  // ---------- Looking up, consuming and posting orders ----------

  function Lookup(os: seq<Order>, id: OrderId): Option<Order> {
    if os == [] then None
    else if os[0].id == id then Some(os[0])
    else Lookup(os[1..], id)
  }

  /** Takes `qty` lots off an order; an order left with nothing goes away. */
  function Reduce(os: seq<Order>, id: OrderId, qty: nat): seq<Order> {
    if os == [] then []
    else if os[0].id == id then
      if qty >= os[0].openQty then os[1..]
      else [os[0].(openQty := os[0].openQty - qty)] + os[1..]
    else [os[0]] + Reduce(os[1..], id, qty)
  }

  function Insert(os: seq<Order>, rank: nat, o: Order): seq<Order> {
    if rank == 0 || os == [] then [o] + os
    else [os[0]] + Insert(os[1..], rank - 1, o)
  }

  ghost predicate Distinct(os: seq<Order>) {
    os == [] || (Lookup(os[1..], os[0].id).None? && Distinct(os[1..]))
  }

  lemma {:induction false} LookupHasId(os: seq<Order>, id: OrderId)
    ensures Lookup(os, id).Some? ==> Lookup(os, id).value in os && Lookup(os, id).value.id == id
  {
    if os != [] && os[0].id != id {
      LookupHasId(os[1..], id);
    }
  }

  lemma {:induction false} LookupFinds(os: seq<Order>, k: nat)
    requires k < |os|
    requires Distinct(os)
    ensures Lookup(os, os[k].id) == Some(os[k])
  {
    if k > 0 {
      LookupFinds(os[1..], k - 1);
    }
  }

  /** Consuming part of an order touches that order only. */
  lemma {:induction false} ReduceLookup(os: seq<Order>, id: OrderId, qty: nat, other: OrderId)
    requires Distinct(os)
    requires Lookup(os, id).Some?
    ensures Lookup(Reduce(os, id, qty), other) ==
      if other != id then Lookup(os, other)
      else
        var o := Lookup(os, id).value;
        if qty >= o.openQty then None else Some(o.(openQty := o.openQty - qty))
  {
    if os[0].id != id {
      ReduceLookup(os[1..], id, qty, other);
      assert Reduce(os, id, qty)[1..] == Reduce(os[1..], id, qty);
    } else if qty < os[0].openQty {
      assert Reduce(os, id, qty)[1..] == os[1..];
    }
  }

  lemma {:induction false} ReduceDistinct(os: seq<Order>, id: OrderId, qty: nat)
    requires Distinct(os)
    requires Lookup(os, id).Some?
    ensures Distinct(Reduce(os, id, qty))
  {
    if os[0].id != id {
      ReduceDistinct(os[1..], id, qty);
      ReduceLookup(os[1..], id, qty, os[0].id);
      assert Reduce(os, id, qty)[1..] == Reduce(os[1..], id, qty);
    } else if qty < os[0].openQty {
      assert Reduce(os, id, qty)[1..] == os[1..];
    }
  }

  /** Every order still has lots to fill. */
  ghost predicate AllOpen(os: seq<Order>) {
    forall o :: o in os ==> o.openQty > 0
  }

  lemma BestIsOpen(os: seq<Order>)
    requires os != []
    ensures AllOpen(os) ==> os[0].openQty > 0
  {
    assert os[0] in os;
  }

  lemma {:induction false} ReduceOpen(os: seq<Order>, id: OrderId, qty: nat)
    requires AllOpen(os)
    ensures AllOpen(Reduce(os, id, qty))
  {
    if os != [] {
      assert forall o :: o in os[1..] ==> o in os;
      ReduceOpen(os[1..], id, qty);
    }
  }

  lemma {:induction false} InsertOpen(os: seq<Order>, rank: nat, o: Order)
    requires AllOpen(os) && o.openQty > 0
    ensures AllOpen(Insert(os, rank, o))
  {
    if rank != 0 && os != [] {
      assert forall x :: x in os[1..] ==> x in os;
      InsertOpen(os[1..], rank - 1, o);
    }
  }

  lemma {:induction false} InsertLookup(os: seq<Order>, rank: nat, o: Order, other: OrderId)
    requires Lookup(os, o.id).None?
    ensures Lookup(Insert(os, rank, o), other) == if other == o.id then Some(o) else Lookup(os, other)
  {
    if rank == 0 || os == [] {
      assert Insert(os, rank, o)[1..] == os;
    } else {
      InsertLookup(os[1..], rank - 1, o, other);
      assert Insert(os, rank, o)[1..] == Insert(os[1..], rank - 1, o);
    }
  }

  /** An order is inserted at its rank, and the others keep their order. */
  lemma {:induction false} InsertAt(os: seq<Order>, rank: nat, o: Order)
    ensures var k := if rank < |os| then rank else |os|;
      Insert(os, rank, o) == os[..k] + [o] + os[k..]
  {
    if rank != 0 && os != [] {
      InsertAt(os[1..], rank - 1, o);
    }
  }

  /** A consumed order keeps its place or leaves it, and the others keep their order. */
  lemma {:induction false} ReduceAt(os: seq<Order>, k: nat, qty: nat)
    requires k < |os| && Distinct(os)
    ensures Reduce(os, os[k].id, qty)
         == os[..k] + (if qty >= os[k].openQty then [] else [os[k].(openQty := os[k].openQty - qty)]) + os[k + 1..]
  {
    if k > 0 {
      LookupFinds(os[1..], k - 1);
      assert os[0].id != os[k].id;
      ReduceAt(os[1..], k - 1, qty);
    }
  }

  lemma {:induction false} InsertDistinct(os: seq<Order>, rank: nat, o: Order)
    requires Distinct(os)
    requires Lookup(os, o.id).None?
    ensures Distinct(Insert(os, rank, o))
  {
    if rank == 0 || os == [] {
      assert Insert(os, rank, o)[1..] == os;
    } else {
      InsertDistinct(os[1..], rank - 1, o);
      InsertLookup(os[1..], rank - 1, o, os[0].id);
      assert Insert(os, rank, o)[1..] == Insert(os[1..], rank - 1, o);
    }
  }

  // ---------- Escrow ----------

  /** Native quote behind one lot of base at a price in lots, before dividing by the denomination. */
  function UnitValue(lots: Lots, price: nat): nat {
    lots.base * price * lots.quote
  }

  function QuoteValue(lots: Lots, qty: nat, price: nat): nat
    requires lots.denomination > 0
  {
    qty * UnitValue(lots, price) / lots.denomination
  }

  /** What cancelling `qty` lots of a resting order gives back: quote for a bid, base for an ask. */
  function Value(lots: Lots, side: Side, price: nat, qty: nat): nat
    requires lots.denomination > 0
  {
    if side == Buy then QuoteValue(lots, qty, price) else qty * lots.base
  }

  /** What posting a bid locks: its quantity at the raw limit price, rounded once. */
  function LockAt(lots: Lots, limit: nat, qty: nat): nat
    requires lots.denomination > 0
  {
    qty * lots.base * limit / lots.denomination
  }

  function CheckedLock(lots: Lots, limit: nat, qty: nat): Result<nat>
    requires lots.denomination > 0
  {
    var _ :- U256(qty * lots.base * limit);
    U128(LockAt(lots, limit, qty))
  }

  /** The lock is the value at the raw limit price, and a quote value that at the price in lots, rounded down once. */
  lemma ValuesExactly(lots: Lots, limit: nat, price: nat, qty: nat)
    requires lots.denomination > 0
    ensures var d := lots.denomination;
      && LockAt(lots, limit, qty) * d <= qty * lots.base * limit < LockAt(lots, limit, qty) * d + d
      && QuoteValue(lots, qty, price) * d <= qty * (lots.base * price * lots.quote) < QuoteValue(lots, qty, price) * d + d
  {
    DivideBack(qty * lots.base * limit, lots.denomination);
    DivideBack(qty * UnitValue(lots, price), lots.denomination);
  }

  lemma LockOfNothing(lots: Lots, limit: nat)
    requires lots.denomination > 0
    ensures LockAt(lots, limit, 0) == 0
  {
    assert 0 * lots.base * limit == 0;
  }

  lemma LockSplit(lots: Lots, limit: nat, x: nat, y: nat)
    requires lots.denomination > 0
    ensures LockAt(lots, limit, x) + LockAt(lots, limit, y) <= LockAt(lots, limit, x + y)
  {
    Distribute(x, y, lots.base);
    Distribute(x * lots.base, y * lots.base, limit);
    FloorSplit(x * lots.base * limit, y * lots.base * limit, lots.denomination);
  }

  lemma LockMonotone(lots: Lots, limit: nat, x: nat, y: nat)
    requires lots.denomination > 0
    requires x <= y
    ensures LockAt(lots, limit, x) <= LockAt(lots, limit, y)
  {
    LockSplit(lots, limit, x, y - x);
  }

  function Escrow(lots: Lots, side: Side, os: seq<Order>): nat
    requires lots.denomination > 0
  {
    if os == [] then 0
    else Value(lots, side, os[0].price, os[0].openQty) + Escrow(lots, side, os[1..])
  }

  lemma ValueOfNothing(lots: Lots, side: Side, price: nat)
    requires lots.denomination > 0
    ensures Value(lots, side, price, 0) == 0
  {
    assert 0 * UnitValue(lots, price) == 0;
  }

  lemma {:induction false} EscrowReduce(lots: Lots, side: Side, os: seq<Order>, id: OrderId, qty: nat)
    requires lots.denomination > 0
    requires Lookup(os, id).Some?
    requires qty <= Lookup(os, id).value.openQty
    ensures var o := Lookup(os, id).value;
      Escrow(lots, side, Reduce(os, id, qty)) + Value(lots, side, o.price, o.openQty)
      == Escrow(lots, side, os) + Value(lots, side, o.price, o.openQty - qty)
  {
    ValueOfNothing(lots, side, os[0].price);
    if os[0].id != id {
      EscrowReduce(lots, side, os[1..], id, qty);
      assert Reduce(os, id, qty)[1..] == Reduce(os[1..], id, qty);
    } else if qty < os[0].openQty {
      assert Reduce(os, id, qty)[1..] == os[1..];
    }
  }

  lemma {:induction false} EscrowInsert(lots: Lots, side: Side, os: seq<Order>, rank: nat, o: Order)
    requires lots.denomination > 0
    ensures Escrow(lots, side, Insert(os, rank, o))
         == Escrow(lots, side, os) + Value(lots, side, o.price, o.openQty)
  {
    if rank == 0 || os == [] {
      assert Insert(os, rank, o)[1..] == os;
    } else {
      EscrowInsert(lots, side, os[1..], rank - 1, o);
      assert Insert(os, rank, o)[1..] == Insert(os[1..], rank - 1, o);
    }
  }

  lemma {:induction false} EscrowCovers(lots: Lots, side: Side, os: seq<Order>, id: OrderId)
    requires lots.denomination > 0
    requires Lookup(os, id).Some?
    ensures var o := Lookup(os, id).value;
      Value(lots, side, o.price, o.openQty) <= Escrow(lots, side, os)
  {
    if os[0].id != id {
      EscrowCovers(lots, side, os[1..], id);
    }
  }

  /** Part of a bid is never worth more than what leaves its escrow; the difference is at most one unit. */
  lemma BidSplit(lots: Lots, price: nat, x: nat, y: nat)
    requires lots.denomination > 0
    ensures var dust := QuoteValue(lots, x + y, price) - QuoteValue(lots, x, price) - QuoteValue(lots, y, price);
      && 0 <= dust <= 1
      && ((lots.base * lots.quote) % lots.denomination == 0 ==> dust == 0)
  {
    var u := UnitValue(lots, price);
    Distribute(x, y, u);
    FloorSplit(x * u, y * u, lots.denomination);
    if (lots.base * lots.quote) % lots.denomination == 0 {
      assert x * u == (x * price) * (lots.base * lots.quote);
      MultipleOfDivisor(x * price, lots.base * lots.quote, lots.denomination);
      FloorSplitExact(x * u, y * u, lots.denomination);
    }
  }

  // ---------- Fills ----------

  datatype Fill = Fill(maker: AccountId, makerOrder: OrderId, qty: nat, price: nat, quotePaid: nat, removed: bool)

  function Init(fills: seq<Fill>): seq<Fill>
    requires fills != []
  {
    fills[..|fills| - 1]
  }

  function Last(fills: seq<Fill>): Fill
    requires fills != []
  {
    fills[|fills| - 1]
  }

  function TotalQty(fills: seq<Fill>): nat {
    if fills == [] then 0 else TotalQty(Init(fills)) + Last(fills).qty
  }

  function TotalQuote(fills: seq<Fill>): nat {
    if fills == [] then 0 else TotalQuote(Init(fills)) + Last(fills).quotePaid
  }

  /** The makers' side after the fills, taken in order. */
  function AfterFills(os: seq<Order>, fills: seq<Fill>): seq<Order> {
    if fills == [] then os
    else Reduce(AfterFills(os, Init(fills)), Last(fills).makerOrder, Last(fills).qty)
  }

  predicate WithinLimit(side: Side, limit: Option<nat>, price: nat) {
    limit.Some? ==> if side == Buy then price <= limit.value else price >= limit.value
  }

  /** A fill takes lots of somebody else's resting order at that order's price. */
  ghost predicate FillOk(lots: Lots, taker: AccountId, side: Side, limit: Option<nat>, os: seq<Order>, f: Fill) {
    var o := Lookup(os, f.makerOrder);
    && o.Some?
    && o.value.owner == f.maker != taker
    && f.price == o.value.price
    && 0 < f.qty <= o.value.openQty
    && (f.removed <==> f.qty == o.value.openQty)
    && WithinLimit(side, limit, f.price)
    && lots.denomination > 0
    && f.quotePaid == QuoteValue(lots, f.qty, f.price)
  }

  ghost predicate FillsOk(lots: Lots, taker: AccountId, side: Side, limit: Option<nat>, os: seq<Order>, fills: seq<Fill>) {
    fills == []
    || (&& FillsOk(lots, taker, side, limit, os, Init(fills))
        && FillOk(lots, taker, side, limit, AfterFills(os, Init(fills)), Last(fills)))
  }

  lemma {:induction false} FillsKeepDistinct(lots: Lots, taker: AccountId, side: Side, limit: Option<nat>, os: seq<Order>, fills: seq<Fill>)
    requires Distinct(os)
    requires FillsOk(lots, taker, side, limit, os, fills)
    ensures Distinct(AfterFills(os, fills))
  {
    if fills != [] {
      FillsKeepDistinct(lots, taker, side, limit, os, Init(fills));
      ReduceDistinct(AfterFills(os, Init(fills)), Last(fills).makerOrder, Last(fills).qty);
    }
  }

  /** Asks give up exactly the base that is traded. */
  lemma {:induction false} AsksRelease(lots: Lots, taker: AccountId, limit: Option<nat>, os: seq<Order>, fills: seq<Fill>)
    requires lots.denomination > 0
    requires FillsOk(lots, taker, Buy, limit, os, fills)
    ensures Escrow(lots, Sell, AfterFills(os, fills)) + TotalQty(fills) * lots.base == Escrow(lots, Sell, os)
  {
    if fills != [] {
      var f, before := Last(fills), AfterFills(os, Init(fills));
      AsksRelease(lots, taker, limit, os, Init(fills));
      EscrowReduce(lots, Sell, before, f.makerOrder, f.qty);
      Distribute(TotalQty(Init(fills)), f.qty, lots.base);
      Distribute(Lookup(before, f.makerOrder).value.openQty - f.qty, f.qty, lots.base);
    }
  }

  /** Bids give up the quote that is paid, plus at most one unit of dust per fill. */
  lemma {:induction false} BidsRelease(lots: Lots, taker: AccountId, limit: Option<nat>, os: seq<Order>, fills: seq<Fill>)
    requires lots.denomination > 0
    requires FillsOk(lots, taker, Sell, limit, os, fills)
    ensures var dust := Escrow(lots, Buy, os) - Escrow(lots, Buy, AfterFills(os, fills)) - TotalQuote(fills);
      && 0 <= dust <= |fills|
      && ((lots.base * lots.quote) % lots.denomination == 0 ==> dust == 0)
  {
    if fills != [] {
      var f, before := Last(fills), AfterFills(os, Init(fills));
      BidsRelease(lots, taker, limit, os, Init(fills));
      EscrowReduce(lots, Buy, before, f.makerOrder, f.qty);
      BidSplit(lots, f.price, Lookup(before, f.makerOrder).value.openQty - f.qty, f.qty);
    }
  }

  /**
   * The life of one bid: whatever partial fills it meets, the quote paid out and the refund of the rest
   * stay within the amount locked at the raw limit price, short of it by at most one unit per fill when
   * the limit is a whole number of lots, and by nothing when the lot sizes divide evenly.
   */
  lemma {:induction false} BidLifetime(lots: Lots, limit: nat, price: nat, openQty: nat, takes: seq<nat>)
    requires lots.denomination > 0
    requires price * lots.quote <= limit
    requires SumOf(takes) <= openQty
    ensures var short := LockAt(lots, limit, openQty) - PaidFor(lots, price, takes) - QuoteValue(lots, openQty - SumOf(takes), price);
      && 0 <= short
      && (price * lots.quote == limit ==> short <= |takes|)
      && (price * lots.quote == limit && (lots.base * lots.quote) % lots.denomination == 0 ==> short == 0)
  {
    if takes == [] {
      LockCoversValue(lots, limit, price, openQty);
    } else {
      var n := |takes| - 1;
      BidLifetime(lots, limit, price, openQty, takes[..n]);
      BidSplit(lots, price, openQty - SumOf(takes), takes[n]);
    }
  }

  lemma ProductWithinLock(lots: Lots, limit: nat, price: nat, qty: nat)
    requires price * lots.quote <= limit
    ensures qty * UnitValue(lots, price) <= qty * lots.base * limit
    ensures price * lots.quote == limit ==> qty * UnitValue(lots, price) == qty * lots.base * limit
  {
    var x, y := price * lots.quote, qty * lots.base;
    assert qty * UnitValue(lots, price) == y * x by {
      assert qty * (lots.base * price * lots.quote) == qty * lots.base * (price * lots.quote);
    }
    MulMonotone(x, limit, y);
  }

  lemma LockCoversValue(lots: Lots, limit: nat, price: nat, qty: nat)
    requires lots.denomination > 0
    requires price * lots.quote <= limit
    ensures QuoteValue(lots, qty, price) <= LockAt(lots, limit, qty)
    ensures price * lots.quote == limit ==> QuoteValue(lots, qty, price) == LockAt(lots, limit, qty)
  {
    ProductWithinLock(lots, limit, price, qty);
    FloorMonotone(qty * UnitValue(lots, price), qty * lots.base * limit, lots.denomination);
  }

  function SumOf(takes: seq<nat>): nat {
    if takes == [] then 0 else SumOf(takes[..|takes| - 1]) + takes[|takes| - 1]
  }

  function PaidFor(lots: Lots, price: nat, takes: seq<nat>): nat
    requires lots.denomination > 0
  {
    if takes == [] then 0
    else PaidFor(lots, price, takes[..|takes| - 1]) + QuoteValue(lots, takes[|takes| - 1], price)
  }
}

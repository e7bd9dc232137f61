/**
 * The boundary to the matching engine. `EngineOk` is what the settlement code relies on; the engine
 * itself belongs to an SDK outside this model, so it is an assumption. The loop of `Market.PlaceOrder`
 * shows that it can be met.
 */
module MatchingEngine {
  import opened Arithmetic
  import opened OrderBook
  import opened Outcomes
  import opened Types

  datatype EngineOrder = EngineOrder(
    sequence: nat,
    limitPrice: Option<nat>,
    maxQty: nat,
    availableQuote: Option<nat>,
    side: Side,
    orderType: OrderType)

  /** The engine's answer: the fills, what is left resting and where on its side it rests. */
  datatype Placement = Placement(id: OrderId, fills: seq<Fill>, openQty: nat, rank: nat)

  predicate CanRest(t: OrderType) {
    t.Limit? || t.PostOnly?
  }

  ghost predicate EngineOk(lots: Lots, b: Book, taker: AccountId, o: EngineOrder, p: Placement) {
    && p.id == OrderId(o.sequence)
    && FillsOk(lots, taker, o.side, o.limitPrice, Resting(b, Opposite(o.side)), p.fills)
    && TotalQty(p.fills) + p.openQty <= o.maxQty
    && (o.availableQuote.Some? ==> TotalQuote(p.fills) <= o.availableQuote.value * lots.quote)
    && (p.openQty > 0 ==> CanRest(o.orderType) && o.limitPrice.Some?)
    && (o.orderType.FillOrKill? ==> p.fills == [] || TotalQty(p.fills) == o.maxQty)
    && (o.orderType.PostOnly? ==> p.fills == [])
  }

  function PostedOrder(taker: AccountId, o: EngineOrder, p: Placement): Order
    requires o.limitPrice.Some?
  {
    Order(p.id, taker, o.limitPrice.value, p.openQty)
  }

  function FilledBook(b: Book, side: Side, fills: seq<Fill>): Book {
    WithResting(b, Opposite(side), AfterFills(Resting(b, Opposite(side)), fills))
  }

  /** The book once the makers are consumed and the remainder, if any, is posted. */
  function NewBook(b: Book, taker: AccountId, o: EngineOrder, p: Placement): Book {
    var filled := FilledBook(b, o.side, p.fills);
    if p.openQty == 0 || o.limitPrice.None? then filled
    else WithResting(filled, o.side, Insert(Resting(filled, o.side), p.rank, PostedOrder(taker, o, p)))
  }

  lemma NoFills(lots: Lots, taker: AccountId, o: EngineOrder, os: seq<Order>)
    ensures FillsOk(lots, taker, o.side, o.limitPrice, os, []) && TakesBest(os, [])
    ensures AfterFills(os, []) == os && TotalQty([]) == 0 && TotalQuote([]) == 0
  {
  }

  /** Taking lots of an order at its price. */
  function FillOf(lots: Lots, m: Order, qty: nat): Fill
    requires lots.denomination > 0
  {
    Fill(m.owner, m.id, qty, m.price, QuoteValue(lots, qty, m.price), qty == m.openQty)
  }

  lemma BestFillOk(lots: Lots, taker: AccountId, o: EngineOrder, makers: seq<Order>, qty: nat)
    requires lots.denomination > 0 && makers != []
    requires makers[0].owner != taker && WithinLimit(o.side, o.limitPrice, makers[0].price)
    requires 0 < qty <= makers[0].openQty
    ensures FillOk(lots, taker, o.side, o.limitPrice, makers, FillOf(lots, makers[0], qty))
  {
    hide QuoteValue;
    assert Lookup(makers, makers[0].id) == Some(makers[0]);
  }

  /** One more fill, of the best order left, within what is left of quantity and budget. */
  lemma FillBest(lots: Lots, taker: AccountId, o: EngineOrder, os: seq<Order>, fills: seq<Fill>, makers: seq<Order>, qty: nat)
    requires lots.denomination > 0
    requires FillsOk(lots, taker, o.side, o.limitPrice, os, fills) && TakesBest(os, fills)
    requires makers == AfterFills(os, fills) && makers != []
    requires makers[0].owner != taker && WithinLimit(o.side, o.limitPrice, makers[0].price)
    requires 0 < qty <= makers[0].openQty
    ensures var f := FillOf(lots, makers[0], qty);
      && FillsOk(lots, taker, o.side, o.limitPrice, os, fills + [f])
      && TakesBest(os, fills + [f])
      && AfterFills(os, fills + [f]) == Reduce(makers, makers[0].id, qty)
      && TotalQty(fills + [f]) == TotalQty(fills) + qty
      && TotalQuote(fills + [f]) == TotalQuote(fills) + f.quotePaid
      && (AllOpen(makers) ==> AllOpen(AfterFills(os, fills + [f])))
  {
    hide QuoteValue, FillOk, Reduce, AllOpen;
    var f := FillOf(lots, makers[0], qty);
    assert Init(fills + [f]) == fills && Last(fills + [f]) == f;
    BestFillOk(lots, taker, o, makers, qty);
    if AllOpen(makers) {
      ReduceOpen(makers, makers[0].id, qty);
    }
  }

  lemma NothingPlaced(b: Book, taker: AccountId, o: EngineOrder)
    ensures NewBook(b, taker, o, Placement(OrderId(o.sequence), [], 0, 0)) == b
  {
    assert AfterFills(Resting(b, Opposite(o.side)), []) == Resting(b, Opposite(o.side));
  }

  /** Every fill takes from the best order that is left. */
  predicate TakesBest(os: seq<Order>, fills: seq<Fill>) {
    fills == []
    || (&& TakesBest(os, Init(fills))
        && var left := AfterFills(os, Init(fills));
           left != [] && left[0].id == Last(fills).makerOrder)
  }

  /** Behind every order at the price or a better one, before the first that is worse. */
  predicate RanksBehind(own: seq<Order>, o: EngineOrder, rank: nat) {
    && rank <= |own|
    && (forall k :: 0 <= k < rank ==> WithinLimit(Opposite(o.side), o.limitPrice, own[k].price))
    && (rank < |own| ==> !WithinLimit(Opposite(o.side), o.limitPrice, own[rank].price))
  }

  /** There is nothing left to buy or sell, within the limit, with what is left of quantity and budget. */
  predicate Exhausted(lots: Lots, o: EngineOrder, os: seq<Order>, fills: seq<Fill>)
    requires lots.denomination > 0
  {
    var left := AfterFills(os, fills);
    || TotalQty(fills) >= o.maxQty
    || left == []
    || !WithinLimit(o.side, o.limitPrice, left[0].price)
    || (&& o.availableQuote.Some?
        && (TotalQuote(fills) > o.availableQuote.value * lots.quote
            || Affordable(lots, o.availableQuote.value * lots.quote - TotalQuote(fills), left[0].price) == 0))
  }

  /** A number of lots at `price` that `budget` native quote can pay for. */
  function Affordable(lots: Lots, budget: nat, price: nat): nat
    requires lots.denomination > 0
  {
    var u := UnitValue(lots, price);
    if u == 0 then TWO_64 else budget * lots.denomination / u
  }

  lemma AffordableIsPaidFor(lots: Lots, budget: nat, price: nat, qty: nat)
    requires lots.denomination > 0
    requires qty <= Affordable(lots, budget, price)
    ensures QuoteValue(lots, qty, price) <= budget
  {
    var u := UnitValue(lots, price);
    if u == 0 {
      assert qty * u == 0;
    } else {
      DivideBack(budget * lots.denomination, u);
      MulMonotone(qty, Affordable(lots, budget, price), u);
      FloorBelow(qty * u, budget, lots.denomination);
    }
  }

  // ---------- Cancels ----------

  datatype Pending = Pending(side: Side, order: Order)

  /** Takes an order off the book, whichever side it rests on. */
  function TakeOrder(b: Book, id: OrderId): Option<(Book, Pending)> {
    if Lookup(b.asks, id).Some? then
      var o := Lookup(b.asks, id).value;
      Some((b.(asks := Reduce(b.asks, id, o.openQty)), Pending(Sell, o)))
    else if Lookup(b.bids, id).Some? then
      var o := Lookup(b.bids, id).value;
      Some((b.(bids := Reduce(b.bids, id, o.openQty)), Pending(Buy, o)))
    else None
  }

  function TakeOrders(b: Book, ids: seq<OrderId>): Result<(Book, seq<Pending>)> {
    if ids == [] then Ok((b, []))
    else
      var earlier :- TakeOrders(b, ids[..|ids| - 1]);
      var taken :- Expect(TakeOrder(earlier.0, ids[|ids| - 1]), OrderNotOnBook);
      Ok((taken.0, earlier.1 + [taken.1]))
  }

  /** An order missing from the book ends the whole batch. */
  lemma {:induction false} FirstMissingWins(b: Book, ids: seq<OrderId>, k: nat)
    requires k <= |ids|
    requires TakeOrders(b, ids[..k]).Err?
    ensures TakeOrders(b, ids) == TakeOrders(b, ids[..k])
    decreases |ids| - k
  {
    if k == |ids| {
      assert ids[..k] == ids;
    } else {
      assert ids[..k + 1][..k] == ids[..k];
      FirstMissingWins(b, ids, k + 1);
    }
  }
}

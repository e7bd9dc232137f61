/** The market object a call loads, changes in place and saves. */
module Market {
  import opened Arithmetic
  import opened MatchingEngine
  import opened OrderBook
  import opened Outcomes
  import opened StoredMarket
  import opened Types

  class Market {
    const terms: Terms
    var state: MarketState
    var book: Book
    var feesAccrued: nat

    constructor Load(stored: VMarket)
      ensures Stored() == stored
    {
      terms := stored.terms;
      state, book, feesAccrued := stored.state, stored.book, stored.feesAccrued;
    }

    function Stored(): VMarket
      reads this
    {
      VMarket(terms, state, book, feesAccrued)
    }

    method IncrFeesAccrued(amount: nat) returns (r: Result<()>)
      modifies this`feesAccrued
      ensures match U128(old(feesAccrued) + amount)
        case Ok(v) => r == Ok(()) && feesAccrued == v
        case Err(e) => r == Err(e) && feesAccrued == old(feesAccrued)
    {
      feesAccrued :- U128(feesAccrued + amount);
      return Ok(());
    }

    /** Price-time matching against the other side, best price first. */
    method PlaceOrder(owner: AccountId, o: EngineOrder) returns (r: Result<Placement>)
      requires TermsOk(terms)
      requires o.availableQuote.Some? ==> o.availableQuote.value < TWO_64
      modifies this`book
      ensures r.Ok? ==> EngineOk(terms.lots, old(book), owner, o, r.value)
      ensures r.Ok? ==> book == NewBook(old(book), owner, o, r.value)
      ensures r.Ok? ==> TakesBest(Resting(old(book), Opposite(o.side)), r.value.fills)
      ensures r.Ok? && AllOpen(Resting(old(book), Opposite(o.side))) && (r.value.fills != [] || !(o.orderType.PostOnly? || o.orderType.FillOrKill?)) ==>
        Exhausted(terms.lots, o, Resting(old(book), Opposite(o.side)), r.value.fills)
      ensures r.Ok? && CanRest(o.orderType) && o.limitPrice.Some? ==>
        var left := AfterFills(Resting(old(book), Opposite(o.side)), r.value.fills);
        left == [] || !WithinLimit(o.side, o.limitPrice, left[0].price) ==> TotalQty(r.value.fills) + r.value.openQty == o.maxQty
      ensures r.Ok? && r.value.openQty > 0 ==> RanksBehind(Resting(old(book), o.side), o, r.value.rank)
      ensures r.Err? ==> r.error == SelfTrade && book == old(book)
    {
      hide FillsOk, TakesBest, AfterFills, TotalQty, TotalQuote, Reduce, AllOpen;
      var lots := terms.lots;
      var makers := Resting(book, Opposite(o.side));
      var fills: seq<Fill> := [];
      NoFills(lots, owner, o, makers);
      var remaining, spent := o.maxQty, 0;
      var crosses := makers != [] && WithinLimit(o.side, o.limitPrice, makers[0].price);
      if crosses && o.orderType.PostOnly? {
        NothingPlaced(book, owner, o);
        return Ok(Placement(OrderId(o.sequence), [], 0, 0));
      }
      while crosses && remaining > 0
        invariant book == old(book)
        invariant makers == AfterFills(Resting(book, Opposite(o.side)), fills)
        invariant crosses == (makers != [] && WithinLimit(o.side, o.limitPrice, makers[0].price))
        invariant FillsOk(lots, owner, o.side, o.limitPrice, Resting(book, Opposite(o.side)), fills)
        invariant TotalQty(fills) + remaining == o.maxQty
        invariant TotalQuote(fills) == spent
        invariant AllOpen(Resting(book, Opposite(o.side))) ==> AllOpen(makers)
        invariant TakesBest(Resting(book, Opposite(o.side)), fills)
        invariant o.availableQuote.Some? ==> spent <= o.availableQuote.value * lots.quote
        invariant o.orderType.PostOnly? ==> fills == []
        decreases remaining
      {
        var m := makers[0];
        if m.owner == owner {
          return Err(SelfTrade);
        }
        var qty := Min(remaining, m.openQty);
        if o.availableQuote.Some? {
          var budget := o.availableQuote.value * lots.quote - spent;
          qty := Min(qty, Affordable(lots, budget, m.price));
          AffordableIsPaidFor(lots, budget, m.price, qty);
        }
        BestIsOpen(makers);
        if qty == 0 {
          break;
        }
        var f := FillOf(lots, m, qty);
        FillBest(lots, owner, o, Resting(book, Opposite(o.side)), fills, makers, qty);
        fills := fills + [f];
        makers := Reduce(makers, m.id, qty);
        remaining, spent := remaining - qty, spent + f.quotePaid;
        crosses := makers != [] && WithinLimit(o.side, o.limitPrice, makers[0].price);
      }
      if o.orderType.FillOrKill? && remaining > 0 {
        NothingPlaced(book, owner, o);
        return Ok(Placement(OrderId(o.sequence), [], 0, 0));
      }
      book := FilledBook(book, o.side, fills);
      var p := Placement(OrderId(o.sequence), fills, 0, 0);
      if CanRest(o.orderType) && o.limitPrice.Some? && remaining > 0 && !crosses {
        var own := Resting(book, o.side);
        var rank := 0;
        while rank < |own| && WithinLimit(Opposite(o.side), o.limitPrice, own[rank].price)
          invariant rank <= |own|
          invariant forall k :: 0 <= k < rank ==> WithinLimit(Opposite(o.side), o.limitPrice, own[k].price)
        {
          rank := rank + 1;
        }
        p := p.(openQty := remaining, rank := rank);
        book := WithResting(book, o.side, Insert(own, rank, PostedOrder(owner, o, p)));
      }
      return Ok(p);
    }

    method CancelOrder(id: OrderId) returns (taken: Option<Pending>)
      modifies this`book
      ensures match TakeOrder(old(book), id)
        case Some(t) => taken == Some(t.1) && book == t.0
        case None => taken == None && book == old(book)
    {
      match TakeOrder(book, id) {
        case Some(t) =>
          book := t.0;
          return Some(t.1);
        case None =>
          return None;
      }
    }

    method CancelOrders(ids: seq<OrderId>) returns (r: Result<seq<Pending>>)
      modifies this`book
      ensures match TakeOrders(old(book), ids)
        case Ok(t) => r == Ok(t.1) && book == t.0
        case Err(e) => r == Err(e)
    {
      var pending: seq<Pending> := [];
      var i := 0;
      while i < |ids|
        invariant i <= |ids|
        invariant TakeOrders(old(book), ids[..i]) == Ok((book, pending))
      {
        assert ids[..i + 1][..i] == ids[..i] && ids[..i + 1][i] == ids[i];
        var taken := CancelOrder(ids[i]);
        if taken.None? {
          FirstMissingWins(old(book), ids, i + 1);
          return Err(OrderNotOnBook);
        }
        pending := pending + [taken.value];
        i := i + 1;
      }
      assert ids[..i] == ids;
      return Ok(pending);
    }
  }
}

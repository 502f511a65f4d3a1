/** The laws of the book's public operations: AddOrder, CancelOrder, MatchOrder, Size
    and getOrderInfos, stated on their specification functions. */
module BookLaws {
  import opened Types
  import opened Orders
  import opened BookSpec
  import opened BookProps
  import opened InsertProps
  import opened CancelProps
  import opened MatchProps

  /** A new book is valid. */
  lemma EmptyBookValid()
    ensures Valid(EmptyBook) && |EmptyBook.index| == 0
  {
  }

  /** AddOrder keeps a valid book valid and reports only crossing trades; when it throws,
      the book is as it was. */
  lemma AddValid(b: Book, o: OrderView)
    requires Valid(b)
    ensures Valid(Add(b, o).book)
    ensures Add(b, o).result.Ok? ==> TradesCross(Add(b, o).result.value)
    ensures Add(b, o).result.Err? ==> Add(b, o).book == b
  {
    if o.orderId !in b.index && !(o.orderType == FillAndKill && !CanMatch(b, o.side, o.price)) {
      var p := Placed(b, o);
      if p.Ok? {
        InsertWellformed(b, p.value);
        MatchOrdersValid(Insert(b, p.value));
      }
    }
  }

  /** AddOrder reports no trades and changes nothing for an id that is already resting,
      and for a FillAndKill order that no opposite level would fill: a buy below every
      ask, a sell above every bid. */
  lemma AddRejects(b: Book, o: OrderView)
    requires Valid(b)
    requires || o.orderId in b.index
             || (&& o.orderType == FillAndKill
                 && (o.side == Buy ==> forall i :: 0 <= i < |b.asks| ==> b.asks[i].price > o.price)
                 && (o.side == Sell ==> forall i :: 0 <= i < |b.bids| ==> b.bids[i].price < o.price))
    ensures Add(b, o) == Outcome(b, Ok([]))
  {
    CanMatchIff(b, o.side, o.price);
  }

  /** A Market order is placed as GoodTillCancel at the best opposite price: the lowest
      ask for a buy, the highest bid for a sell. */
  lemma MarketTakesBestPrice(b: Book, o: OrderView)
    requires Valid(b) && o.orderType == Market
    ensures Placed(b, o).Ok? ==>
      var p := Placed(b, o).value;
      && p.orderType == GoodTillCancel
      && (o.side == Buy ==> (exists i :: 0 <= i < |b.asks| && b.asks[i].price == p.price) && forall i :: 0 <= i < |b.asks| ==> p.price <= b.asks[i].price)
      && (o.side == Sell ==> (exists i :: 0 <= i < |b.bids| && b.bids[i].price == p.price) && forall i :: 0 <= i < |b.bids| ==> p.price >= b.bids[i].price)
  {
    BestPrices(b);
  }

  /** The quantity the new order brings in is either traded, on both sides, or left
      resting, before the fill-and-kill cancellation at the fronts. */
  lemma AddConserves(b: Book, p: OrderView)
    requires Valid(b) && p.orderId !in b.index && p.orderType != Market
    ensures var m := MatchLoop(Insert(b, p), []);
      TotalRemaining(m.0.bids) + TotalRemaining(m.0.asks) + 2 * Volume(m.1) ==
      TotalRemaining(b.bids) + TotalRemaining(b.asks) + p.remainingQuantity
  {
    InsertWellformed(b, p);
    MatchLoopOk(Insert(b, p), []);
    if p.side == Buy {
      AppendRemaining(b.bids, Buy, p);
    } else {
      AppendRemaining(b.asks, Sell, p);
    }
  }

  /** MatchOrder keeps a valid book valid and never throws: the replacement keeps the
      resting order's type, which is never Market. An unknown id changes nothing. */
  lemma ModifyValid(b: Book, m: OrderModify)
    requires Valid(b)
    ensures Valid(Modify(b, m).book)
    ensures Modify(b, m).result.Ok?
    ensures TradesCross(Modify(b, m).result.value)
    ensures m.orderId !in b.index ==> Modify(b, m) == Outcome(b, Ok([]))
  {
    if m.orderId in b.index {
      CancelWellformed(b, m.orderId);
      LookupResting(b, m.orderId);
      AddValid(Cancel(b, m.orderId), m.ToOrder(ResidentType(b, m.orderId)));
    }
  }

  /** The replacement takes the new side, price and quantity and the type of the order
      it replaces. */
  lemma ModifyKeepsType(b: Book, m: OrderModify)
    requires Wellformed(b) && m.orderId in b.index
    ensures Lookup(b, m.orderId).Some?
    ensures Modify(b, m) == Add(Cancel(b, m.orderId), m.ToOrder(Lookup(b, m.orderId).value.orderType))
  {
    LookupResting(b, m.orderId);
  }

  /** getOrderInfos of a valid book: bids from the highest price down, asks from the
      lowest up, the best bid below the best ask, one entry per level with the level's
      total remaining quantity. */
  lemma InfosOrdered(b: Book)
    requires Valid(b)
    ensures var bids, asks := Summaries(b.bids), Summaries(b.asks);
      && (forall i, j :: 0 <= i < j < |bids| ==> bids[i].price > bids[j].price)
      && (forall i, j :: 0 <= i < j < |asks| ==> asks[i].price < asks[j].price)
      && (bids != [] && asks != [] ==> bids[0].price < asks[0].price)
  {
    var bids, asks := Summaries(b.bids), Summaries(b.asks);
    forall i, j | 0 <= i < j < |bids| ensures bids[i].price > bids[j].price {
      assert Before(Buy, b.bids[i].price, b.bids[j].price);
    }
    forall i, j | 0 <= i < j < |asks| ensures asks[i].price < asks[j].price {
      assert Before(Sell, b.asks[i].price, b.asks[j].price);
    }
  }
}

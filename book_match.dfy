/** Facts about MatchOrders: matching keeps the book wellformed, leaves it uncrossed,
    conserves quantity and only produces trades at crossing prices. */
module MatchProps {
  import opened Types
  import opened Orders
  import opened BookSpec
  import opened BookProps
  import opened CancelProps

  /** Every trade pairs a bid at or above the ask it traded with, for one quantity on
      both sides. */
  predicate TradesCross(trades: seq<Trade>) {
    forall i :: 0 <= i < |trades| ==>
      && trades[i].bidTrade.price >= trades[i].askTrade.price
      && trades[i].bidTrade.quantity == trades[i].askTrade.quantity
  }

  lemma VolumeSnoc(trades: seq<Trade>, t: Trade)
    ensures Volume(trades + [t]) == Volume(trades) + t.bidTrade.quantity
  {
    assert (trades + [t])[..|trades|] == trades;
  }

  /** The inner loop's state is sound with respect to the book `b` it started from: the
      front queues still belong to `b`'s best levels, the levels behind them are
      untouched, and the resting ids are exactly the index keys. */
  ghost predicate FrontsOk(b: Book, f: Fronts)
    requires b.bids != [] && b.asks != []
  {
    && (forall o :: o in f.bids ==> OrderOk(o, Buy, b.bids[0].price, f.index))
    && (forall o :: o in f.asks ==> OrderOk(o, Sell, b.asks[0].price, f.index))
    && LevelsOk(b.bids[1..], Buy, f.index)
    && LevelsOk(b.asks[1..], Sell, f.index)
    && OrderIds(f.bids) + (Ids(b.bids[1..]) + (OrderIds(f.asks) + Ids(b.asks[1..]))) == multiset(f.index.Keys)
  }

  /** Filling the front order of a queue: the queue stays sound under the new index, and
      its ids and its remaining quantity drop exactly as the index and the fill do. */
  lemma FillFrontOk(orders: seq<OrderView>, side: Side, price: Price, index: map<OrderId, Locator>, quantity: Quantity)
    requires orders != [] && quantity <= orders[0].remainingQuantity
    requires forall o :: o in orders ==> OrderOk(o, side, price, index)
    ensures var (os, ix) := FillFront(orders, index, quantity);
      && (forall o :: o in os ==> OrderOk(o, side, price, ix))
      && Remaining(os) == Remaining(orders) - quantity
      && (|os| < |orders| ==> OrderIds(os) == OrderIds(orders) - multiset{orders[0].orderId} && ix == index - {orders[0].orderId})
      && (|os| == |orders| ==> OrderIds(os) == OrderIds(orders) && ix == index)
  {
    var filled := orders[0].Fill(quantity);
    if filled.IsFilled() {
      PopFront(orders, side, price, index);
    } else {
      FrontOrderReplaced(orders, filled);
      assert orders[0] in orders;
      assert OrderOk(filled, side, price, index);
    }
  }

  lemma PopFront(orders: seq<OrderView>, side: Side, price: Price, index: map<OrderId, Locator>)
    requires orders != []
    requires forall o :: o in orders ==> OrderOk(o, side, price, index)
    ensures forall o :: o in orders[1..] ==> OrderOk(o, side, price, index - {orders[0].orderId})
    ensures OrderIds(orders[1..]) == OrderIds(orders) - multiset{orders[0].orderId}
    ensures Remaining(orders[1..]) == Remaining(orders) - orders[0].remainingQuantity
  {
    var ix := index - {orders[0].orderId};
    forall o | o in orders[1..] ensures OrderOk(o, side, price, ix) {
      assert o in orders;
    }
  }

  /** `ix` answers like `index` wherever it answers. */
  ghost predicate SubIndex(ix: map<OrderId, Locator>, index: map<OrderId, Locator>) {
    ix.Keys <= index.Keys && forall id :: id in ix ==> ix[id] == index[id]
  }

  lemma QueueSubIndex(orders: seq<OrderView>, side: Side, price: Price, index: map<OrderId, Locator>, ix: map<OrderId, Locator>)
    requires forall o :: o in orders ==> OrderOk(o, side, price, index)
    requires SubIndex(ix, index)
    ensures forall o :: o in orders ==> OrderOk(o, side, price, ix)
  {
  }

  /** One side of a trade: the front order of `orders` is filled by `quantity`, with the
      ids `rest` resting elsewhere and the untouched levels `bt` and `at`. */
  lemma FillStep(orders: seq<OrderView>, side: Side, price: Price, index: map<OrderId, Locator>, quantity: Quantity,
                 rest: multiset<OrderId>, bt: seq<Level>, at: seq<Level>)
    requires orders != [] && quantity <= orders[0].remainingQuantity
    requires forall o :: o in orders ==> OrderOk(o, side, price, index)
    requires OrderIds(orders) + rest == multiset(index.Keys)
    requires LevelsOk(bt, Buy, index) && LevelsOk(at, Sell, index)
    ensures var (os, ix) := FillFront(orders, index, quantity);
      && (forall o :: o in os ==> OrderOk(o, side, price, ix))
      && OrderIds(os) + rest == multiset(ix.Keys)
      && LevelsOk(bt, Buy, ix) && LevelsOk(at, Sell, ix)
      && Remaining(os) == Remaining(orders) - quantity
      && SubIndex(ix, index)
  {
    var (os, ix) := FillFront(orders, index, quantity);
    FillFrontOk(orders, side, price, index, quantity);
    if |os| < |orders| {
      assert orders[0].orderId in OrderIds(orders) by { InOrderIds(orders, orders[0]); }
      DropFromSum(OrderIds(orders), OrderIds(os), rest, index.Keys, orders[0].orderId);
      LevelsOkSubIndex(bt, Buy, index, ix);
      LevelsOkSubIndex(at, Sell, index, ix);
    }
  }

  /** One trade keeps the inner loop's state sound, appends one crossing trade and
      conserves quantity. */
  lemma TradeStep(b: Book, f: Fronts)
    requires b.bids != [] && b.asks != [] && b.bids[0].price >= b.asks[0].price
    requires FrontsOk(b, f) && f.bids != [] && f.asks != []
    ensures var r := TradeFronts(f);
      && FrontsOk(b, r)
      && |r.trades| == |f.trades| + 1 && r.trades[..|f.trades|] == f.trades
      && TradesCross(r.trades[|f.trades|..])
      && Remaining(r.bids) + Remaining(r.asks) + 2 * Volume(r.trades) ==
         Remaining(f.bids) + Remaining(f.asks) + 2 * Volume(f.trades)
  {
    var bid := f.bids[0];
    var ask := f.asks[0];
    var quantity := Min(bid.remainingQuantity, ask.remainingQuantity);
    var bt, at := b.bids[1..], b.asks[1..];
    var (bids, index) := FillFront(f.bids, f.index, quantity);
    FillStep(f.bids, Buy, b.bids[0].price, f.index, quantity, Ids(bt) + (OrderIds(f.asks) + Ids(at)), bt, at);
    QueueSubIndex(f.asks, Sell, b.asks[0].price, f.index, index);
    var rest := OrderIds(bids) + Ids(bt) + Ids(at);
    assert OrderIds(f.asks) + rest == multiset(index.Keys);
    var (asks, index') := FillFront(f.asks, index, quantity);
    FillStep(f.asks, Sell, b.asks[0].price, index, quantity, rest, bt, at);
    QueueSubIndex(bids, Buy, b.bids[0].price, index, index');
    var trade := Trade(TradeInfo(bid.orderId, bid.price, quantity), TradeInfo(ask.orderId, ask.price, quantity));
    VolumeSnoc(f.trades, trade);
    assert bid in f.bids && ask in f.asks;
    assert (f.trades + [trade])[|f.trades|..] == [trade];
  }

  /** Crossing trades followed by crossing trades are crossing trades. */
  lemma CrossExtended(trades: seq<Trade>, extended: seq<Trade>)
    requires TradesCross(trades) && |trades| <= |extended| && extended[..|trades|] == trades
    requires TradesCross(extended[|trades|..])
    ensures TradesCross(extended)
  {
    forall i | 0 <= i < |extended|
      ensures extended[i].bidTrade.price >= extended[i].askTrade.price
      ensures extended[i].bidTrade.quantity == extended[i].askTrade.quantity
    {
      if i < |trades| {
        assert extended[i] == extended[..|trades|][i];
      } else {
        assert extended[i] == extended[|trades|..][i - |trades|];
      }
    }
  }

  /** The inner loop keeps its state sound, only appends crossing trades and conserves
      quantity. */
  lemma {:induction false} MatchFrontsOk(b: Book, f: Fronts)
    requires b.bids != [] && b.asks != [] && b.bids[0].price >= b.asks[0].price
    requires FrontsOk(b, f) && TradesCross(f.trades)
    ensures var r := MatchFronts(f);
      && FrontsOk(b, r)
      && TradesCross(r.trades)
      && |f.trades| <= |r.trades| && r.trades[..|f.trades|] == f.trades
      && Remaining(r.bids) + Remaining(r.asks) + 2 * Volume(r.trades) ==
         Remaining(f.bids) + Remaining(f.asks) + 2 * Volume(f.trades)
    decreases |f.bids| + |f.asks|
  {
    if f.bids != [] && f.asks != [] {
      var g := TradeFronts(f);
      TradeStep(b, f);
      CrossExtended(f.trades, g.trades);
      MatchFrontsOk(b, g);
      var r := MatchFronts(g);
      assert r.trades[..|f.trades|] == r.trades[..|g.trades|][..|f.trades|];
    }
  }

  /** The inner loop's first state, taken from a wellformed book. */
  lemma InitialFrontsOk(b: Book, trades: seq<Trade>)
    requires Wellformed(b) && b.bids != [] && b.asks != []
    ensures FrontsOk(b, Fronts(b.bids[0].orders, b.asks[0].orders, b.index, trades))
  {
    assert b.bids[0] in b.bids && b.asks[0] in b.asks;
    SortedTail(b.bids, Buy);
    SortedTail(b.asks, Sell);
  }

  /** Writing the front queue back into its side keeps the side sound. */
  lemma SettleOk(levels: seq<Level>, side: Side, orders: seq<OrderView>, index: map<OrderId, Locator>)
    requires levels != [] && Sorted(levels, side) && NoEmptyLevel(levels)
    requires LevelsOk(levels[1..], side, index)
    requires forall o :: o in orders ==> OrderOk(o, side, levels[0].price, index)
    ensures var r := Settle(levels, orders);
      && LevelsOk(r, side, index)
      && NoEmptyLevel(r)
      && Ids(r) == OrderIds(orders) + Ids(levels[1..])
      && TotalRemaining(r) == Remaining(orders) + TotalRemaining(levels[1..])
  {
    if orders != [] {
      var l := Level(levels[0].price, orders);
      FrontReplaced(levels, l);
      SortedReplaced(levels, side, 0, l);
      var r := levels[0 := l];
      forall x | x in r ensures LevelOk(x, side, index) && x.orders != [] {
        if x != l {
          assert x in levels[1..];
        }
      }
    }
  }

  /** One round of the outer loop: the book rebuilt after the inner loop is wellformed. */
  lemma RoundOk(b: Book, f: Fronts)
    requires Wellformed(b) && b.bids != [] && b.asks != []
    requires FrontsOk(b, f)
    ensures var r := Book(Settle(b.bids, f.bids), Settle(b.asks, f.asks), f.index);
      && Wellformed(r)
      && TotalRemaining(r.bids) + TotalRemaining(r.asks) ==
         Remaining(f.bids) + Remaining(f.asks) + TotalRemaining(b.bids[1..]) + TotalRemaining(b.asks[1..])
  {
    SettleOk(b.bids, Buy, f.bids, f.index);
    SettleOk(b.asks, Sell, f.asks, f.index);
  }

  /** One round of the outer loop on a crossed book: the next book is wellformed, the
      trades only grow by crossing trades and quantity is conserved. */
  lemma RoundStepOk(b: Book, trades: seq<Trade>)
    requires Wellformed(b) && TradesCross(trades) && Crossed(b)
    ensures var f := MatchFronts(Fronts(b.bids[0].orders, b.asks[0].orders, b.index, trades));
      var b' := Book(Settle(b.bids, f.bids), Settle(b.asks, f.asks), f.index);
      && Wellformed(b')
      && TradesCross(f.trades)
      && |trades| <= |f.trades| && f.trades[..|trades|] == trades
      && TotalRemaining(b'.bids) + TotalRemaining(b'.asks) + 2 * Volume(f.trades) ==
         TotalRemaining(b.bids) + TotalRemaining(b.asks) + 2 * Volume(trades)
  {
    var f0 := Fronts(b.bids[0].orders, b.asks[0].orders, b.index, trades);
    InitialFrontsOk(b, trades);
    MatchFrontsOk(b, f0);
    var f := MatchFronts(f0);
    RoundOk(b, f);
  }

  /** The outer loop ends with a valid book, appends only crossing trades and conserves
      quantity: every unit traded leaves one bid and one ask. */
  lemma {:induction false} MatchLoopOk(b: Book, trades: seq<Trade>)
    requires Wellformed(b) && TradesCross(trades)
    ensures var (r, ts) := MatchLoop(b, trades);
      && Valid(r)
      && TradesCross(ts)
      && |trades| <= |ts| && ts[..|trades|] == trades
      && TotalRemaining(r.bids) + TotalRemaining(r.asks) + 2 * Volume(ts) ==
         TotalRemaining(b.bids) + TotalRemaining(b.asks) + 2 * Volume(trades)
    decreases Weight(b.bids) + Weight(b.asks)
  {
    if Crossed(b) {
      var f := MatchFronts(Fronts(b.bids[0].orders, b.asks[0].orders, b.index, trades));
      var b' := Book(Settle(b.bids, f.bids), Settle(b.asks, f.asks), f.index);
      RoundStepOk(b, trades);
      assert MatchLoop(b, trades) == MatchLoop(b', f.trades);
      MatchLoopOk(b', f.trades);
      var ts := MatchLoop(b', f.trades).1;
      assert ts[..|trades|] == ts[..|f.trades|][..|trades|];
    }
  }

  lemma CancelValid(b: Book, id: OrderId)
    requires Valid(b)
    ensures Valid(Cancel(b, id))
    ensures Cancel(b, id).index.Keys <= b.index.Keys
  {
    CancelWellformed(b, id);
  }

  /** Cancelling the FillAndKill orders at the fronts keeps a valid book valid. */
  lemma KillFrontsValid(b: Book)
    requires Valid(b)
    ensures Valid(KillFronts(b))
    ensures KillFronts(b).index.Keys <= b.index.Keys
  {
    var kill1 := b.bids != [] && b.bids[0].orders != [] && b.bids[0].orders[0].orderType == FillAndKill;
    if kill1 {
      CancelValid(b, b.bids[0].orders[0].orderId);
    }
    var b1 := if kill1 then Cancel(b, b.bids[0].orders[0].orderId) else b;
    if b1.asks != [] && b1.asks[0].orders != [] && b1.asks[0].orders[0].orderType == FillAndKill {
      CancelValid(b1, b1.asks[0].orders[0].orderId);
    }
  }

  /** MatchOrders leaves a valid book and reports only crossing trades, whatever crossed
      but wellformed book it starts from. */
  lemma MatchOrdersValid(b: Book)
    requires Wellformed(b)
    ensures Valid(MatchOrders(b).0)
    ensures TradesCross(MatchOrders(b).1)
  {
    MatchLoopOk(b, []);
    KillFrontsValid(MatchLoop(b, []).0);
  }
}

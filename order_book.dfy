/** The engine's OrderBook object (OrderBook.h, OrderBook.cpp): its fields are updated
    in place, and every operation is proved against its specification in BookSpec. */
module OrderBooks {
  import opened Types
  import opened Orders
  import opened BookSpec
  import BookProps
  import CancelProps
  import MatchProps
  import BookLaws

  class OrderBook {
    /** Bid levels, best (highest) price first. */
    var bids: seq<Level>
    /** Ask levels, best (lowest) price first. */
    var asks: seq<Level>
    /** Where each resting order is: the id index. */
    var orders: map<OrderId, Locator>

    function State(): Book
      reads this
    {
      Book(bids, asks, orders)
    }

    constructor ()
      ensures State() == EmptyBook
      ensures Valid(State())
    {
      bids := [];
      asks := [];
      orders := map[];
    }

    /** Trade while the best bid is at or above the best ask, then cancel a FillAndKill
        order left at the front of the best bid level and of the best ask level. */
    method MatchOrders() returns (trades: seq<Trade>)
      modifies this
      ensures (State(), trades) == BookSpec.MatchOrders(old(State()))
      ensures Wellformed(old(State())) ==> Valid(State()) && MatchProps.TradesCross(trades)
    {
      trades := [];
      while true
        invariant MatchLoop(State(), trades) == MatchLoop(old(State()), [])
        decreases Weight(bids) + Weight(asks)
      {
        if bids == [] || asks == [] {
          break;
        }
        var bidPrice, askPrice := bids[0].price, asks[0].price;
        if bidPrice < askPrice {
          break;
        }
        var bq, aq := bids[0].orders, asks[0].orders;
        ghost var start := Fronts(bq, aq, orders, trades);
        ghost var before := State();
        while bq != [] && aq != []
          invariant MatchFronts(Fronts(bq, aq, orders, trades)) == MatchFronts(start)
          invariant bids == before.bids && asks == before.asks && bids != [] && asks != []
          invariant |bq| + |aq| <= |bids[0].orders| + |asks[0].orders|
          decreases |bq| + |aq|
        {
          var bid, ask := bq[0], aq[0];
          var quantity := Min(bid.remainingQuantity, ask.remainingQuantity);
          var filledBid, filledAsk := bid.Fill(quantity), ask.Fill(quantity);
          if filledBid.IsFilled() {
            bq := bq[1..];
            orders := orders - {bid.orderId};
          } else {
            bq := bq[0 := filledBid];
          }
          if filledAsk.IsFilled() {
            aq := aq[1..];
            orders := orders - {ask.orderId};
          } else {
            aq := aq[0 := filledAsk];
          }
          trades := trades + [Trade(TradeInfo(bid.orderId, bid.price, quantity), TradeInfo(ask.orderId, ask.price, quantity))];
        }
        if bq == [] {
          bids := bids[1..];
        } else {
          bids := bids[0 := Level(bidPrice, bq)];
        }
        if aq == [] {
          asks := asks[1..];
        } else {
          asks := asks[0 := Level(askPrice, aq)];
        }
        assert State() == Book(Settle(before.bids, bq), Settle(before.asks, aq), orders);
      }
      if bids != [] && bids[0].orders != [] && bids[0].orders[0].orderType == FillAndKill {
        CancelOrder(bids[0].orders[0].orderId);
      }
      if asks != [] && asks[0].orders != [] && asks[0].orders[0].orderType == FillAndKill {
        CancelOrder(asks[0].orders[0].orderId);
      }
      if Wellformed(old(State())) {
        MatchProps.MatchOrdersValid(old(State()));
      }
    }

    /** AddOrder: ignore a duplicate id or a FillAndKill order that cannot trade; reprice
        a Market order (throwing when the opposite side is empty); append the order to its
        level, index it and match. The order object itself is what gets repriced. */
    method AddOrder(order: Order) returns (result: Result<seq<Trade>>)
      modifies this, order
      ensures var out := Add(old(State()), old(order.View()));
        State() == out.book && result == out.result
      ensures Valid(old(State())) ==> Valid(State())
      ensures
        var placed := Placed(old(State()), old(order.View()));
        if old(order.orderType) == Market && old(order.orderId) !in old(orders) && placed.Ok?
        then order.View() == placed.value
        else order.View() == old(order.View())
    {
      if order.orderId in orders {
        return Ok([]);
      }
      if order.orderType == FillAndKill && !CanMatch(State(), order.side, order.price) {
        return Ok([]);
      }
      if order.orderType == Market {
        if order.side == Buy {
          if asks == [] {
            return Err(MarketBuyNoAsks);
          }
          var _ := order.ToGoodTillCancel(asks[0].price);
        } else {
          if bids == [] {
            return Err(MarketSellNoBids);
          }
          var _ := order.ToGoodTillCancel(bids[0].price);
        }
      }
      var o := order.View();
      assert Placed(old(State()), old(order.View())) == Ok(o);
      if o.side == Buy {
        bids := Append(bids, Buy, o);
      } else {
        asks := Append(asks, Sell, o);
      }
      orders := orders[o.orderId := Locator(o.side, o.price)];
      assert State() == Insert(old(State()), o);
      var trades := MatchOrders();
      result := Ok(trades);
      if Valid(old(State())) {
        BookLaws.AddValid(old(State()), old(order.View()));
      }
    }

    /** CancelOrder: an unknown id is ignored; otherwise the entry leaves the index and the
        order leaves its level, and a level left empty is erased. */
    method CancelOrder(orderId: OrderId)
      modifies this
      ensures State() == Cancel(old(State()), orderId)
      ensures Wellformed(old(State())) ==> Wellformed(State()) && orders == old(orders) - {orderId}
      ensures Valid(old(State())) ==> Valid(State())
    {
      ghost var b := State();
      if Wellformed(b) {
        CancelProps.CancelWellformed(b, orderId);
      }
      if orderId !in orders {
        return;
      }
      var loc := orders[orderId];
      orders := orders - {orderId};
      if loc.side == Sell {
        asks := EraseFromLevel(asks, loc.price, orderId);
      } else {
        bids := EraseFromLevel(bids, loc.price, orderId);
      }
    }

    /** Erases an order from the level at `price`, and the level itself when that leaves
        it empty; without a level at `price` nothing changes. */
    static method EraseFromLevel(levels: seq<Level>, price: Price, orderId: OrderId) returns (r: seq<Level>)
      ensures var k := FindLevel(levels, price);
        r == if k < |levels| then RemoveOrderAt(levels, k, orderId) else levels
    {
      var k := FindLevel(levels, price);
      r := levels;
      if k < |levels| {
        var rest := Without(levels[k].orders, orderId);
        if rest == [] {
          r := levels[..k] + levels[k + 1..];
        } else {
          r := levels[k := Level(levels[k].price, rest)];
        }
      }
    }

    /** MatchOrder (modify): an unknown id is ignored; otherwise the resting order is
        cancelled and replaced by one with the new side, price and quantity and the old
        order's type. */
    method MatchOrder(m: OrderModify) returns (result: Result<seq<Trade>>)
      modifies this
      ensures var out := Modify(old(State()), m);
        State() == out.book && result == out.result
      ensures Valid(old(State())) ==> Valid(State()) && result.Ok?
    {
      if m.orderId !in orders {
        return Ok([]);
      }
      var orderType := ResidentType(State(), m.orderId);
      CancelOrder(m.orderId);
      var order := m.ToOrderPointer(orderType);
      result := AddOrder(order);
      if Valid(old(State())) {
        BookLaws.ModifyValid(old(State()), m);
      }
    }

    /** The number of resting orders. */
    function Size(): (n: nat)
      reads this
      ensures Wellformed(State()) ==> n == Count(bids) + Count(asks)
    {
      BookProps.SizeCountsResting(State());
      |orders|
    }

    /** The total remaining quantity of one level's queue. */
    static method LevelQuantity(queue: seq<OrderView>) returns (sum: Quantity)
      ensures sum == Remaining(queue)
    {
      sum := 0;
      for i := 0 to |queue|
        invariant sum + Remaining(queue[i..]) == Remaining(queue)
      {
        assert queue[i..][1..] == queue[i + 1..];
        sum := sum + queue[i].remainingQuantity;
      }
    }

    /** getOrderInfos: one entry per level, bids best first, then asks best first. */
    method GetOrderInfos() returns (infos: OrderBookLevelInfos)
      ensures infos == OrderBookLevelInfos(Summaries(bids), Summaries(asks))
    {
      var bidInfos: seq<LevelInfo> := [];
      for i := 0 to |bids|
        invariant |bidInfos| == i
        invariant forall j :: 0 <= j < i ==> bidInfos[j] == LevelInfo(bids[j].price, Remaining(bids[j].orders))
      {
        var quantity := LevelQuantity(bids[i].orders);
        bidInfos := bidInfos + [LevelInfo(bids[i].price, quantity)];
      }
      var askInfos: seq<LevelInfo> := [];
      for i := 0 to |asks|
        invariant |askInfos| == i
        invariant forall j :: 0 <= j < i ==> askInfos[j] == LevelInfo(asks[j].price, Remaining(asks[j].orders))
      {
        var quantity := LevelQuantity(asks[i].orders);
        askInfos := askInfos + [LevelInfo(asks[i].price, quantity)];
      }
      infos := OrderBookLevelInfos(bidInfos, askInfos);
    }
  }
}

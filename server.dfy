/** The engine's OrderBookServer (tcp_server.cpp): it owns one OrderBook and answers one
    parsed request at a time. Every handler is proved against its function in Protocol. */
module Server {
  import opened Types
  import opened Orders
  import opened BookSpec
  import opened JsonValues
  import opened Protocol
  import opened OrderBooks
  import ProtocolLaws

  class OrderBookServer {
    /** The server's book; the server updates it only through its methods. */
    const orderbook: OrderBook

    constructor ()
      ensures fresh(orderbook)
      ensures orderbook.State() == EmptyBook
    {
      orderbook := new OrderBook();
    }

    /** processRequest on a request that parsed (`Some`) or did not (`None`). */
    method ProcessRequest(request: Option<Json>) returns (response: Json)
      modifies orderbook
      ensures (orderbook.State(), response) == Respond(old(orderbook.State()), request)
      ensures Valid(old(orderbook.State())) ==> Valid(orderbook.State())
    {
      ProtocolLaws.RespondKeepsValid(orderbook.State(), request);
      if request.None? {
        return InvalidJsonReply;
      }
      var root := request.value;
      var action := ActionOf(root);
      if action.Err? {
        return ErrorReply(action.message);
      }
      if action.value == "add_order" {
        var r := HandleAddOrder(Member(root, "data"));
        response := Caught(r);
      } else if action.value == "cancel_order" {
        var r := HandleCancelOrder(Member(root, "data"));
        response := Caught(r);
      } else if action.value == "get_size" {
        response := SizeReply(orderbook.Size());
      } else if action.value == "get_orderbook" {
        response := HandleGetOrderBook();
      } else {
        response := UnknownActionReply(action.value);
      }
    }

    /** handleAddOrder: an Err result is the exception the engine's catch clause turns
        into the reply. */
    method HandleAddOrder(data: Json) returns (r: Result<Json>)
      modifies orderbook
      ensures (orderbook.State(), r) == HandleAdd(old(orderbook.State()), data)
    {
      var decoded := DecodeOrder(data);
      if decoded.Err? {
        return Err(decoded.message);
      }
      var o := decoded.value;
      ghost var out := Add(orderbook.State(), o);
      assert HandleAdd(orderbook.State(), data) ==
        (out.book, if out.result.Ok? then Ok(AddReply(out.result.value)) else Err(out.result.message));
      var order := new Order(o.orderType, o.orderId, o.side, o.price, o.initialQuantity);
      assert order.View() == o;
      var result := orderbook.AddOrder(order);
      assert orderbook.State() == out.book && result == out.result;
      if result.Err? {
        return Err(result.message);
      }
      var tradesJson := TradesToJson(result.value);
      r := Ok(JObject(map[
        "success" := JBool(true),
        "trades_count" := JInt(|result.value|),
        "trades" := JArray(tradesJson)]));
    }

    /** The trade objects of handleAddOrder's reply, in the order of the trades. */
    static method TradesToJson(trades: seq<Trade>) returns (tradesJson: seq<Json>)
      ensures tradesJson == TradesJson(trades)
    {
      tradesJson := [];
      for i := 0 to |trades|
        invariant |tradesJson| == i
        invariant forall j :: 0 <= j < i ==> tradesJson[j] == TradeJson(trades[j])
      {
        tradesJson := tradesJson + [TradeJson(trades[i])];
      }
    }

    method HandleCancelOrder(data: Json) returns (r: Result<Json>)
      modifies orderbook
      ensures (orderbook.State(), r) == HandleCancel(old(orderbook.State()), data)
    {
      var id := DecodeCancel(data);
      if id.Err? {
        return Err(id.message);
      }
      orderbook.CancelOrder(id.value);
      r := Ok(CancelReply);
    }

    /** handleGetOrderBook: one {price, quantity} object per level, in the order of
        getOrderInfos. */
    method HandleGetOrderBook() returns (response: Json)
      ensures response == SnapshotReply(OrderBookLevelInfos(Summaries(orderbook.bids), Summaries(orderbook.asks)))
    {
      var infos := orderbook.GetOrderInfos();
      var bidsJson: seq<Json> := [];
      for i := 0 to |infos.bids|
        invariant |bidsJson| == i
        invariant forall j :: 0 <= j < i ==> bidsJson[j] == LevelJson(infos.bids[j])
      {
        bidsJson := bidsJson + [LevelJson(infos.bids[i])];
      }
      var asksJson: seq<Json> := [];
      for i := 0 to |infos.asks|
        invariant |asksJson| == i
        invariant forall j :: 0 <= j < i ==> asksJson[j] == LevelJson(infos.asks[j])
      {
        asksJson := asksJson + [LevelJson(infos.asks[i])];
      }
      assert bidsJson == LevelsJson(infos.bids) && asksJson == LevelsJson(infos.asks);
      response := JObject(map[
        "bids" := JArray(bidsJson),
        "asks" := JArray(asksJson),
        "success" := JBool(true)]);
    }
  }
}

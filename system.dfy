/** The three programs together: what the client sends is what the engine decodes, and
    the gateway's status codes follow what the book did. */
module System {
  import opened Types
  import opened Orders
  import opened BookSpec
  import opened JsonValues
  import opened Protocol
  import opened Client
  import opened Gateway
  import ProtocolLaws

  /** The engine reads back the action and the data of every request the client builds. */
  lemma RequestRoundTrip(action: string, data: Json)
    ensures ActionOf(Request(action, data)) == Ok(action)
    ensures Member(Request(action, data), "data") == DataOrEmpty(data)
  {
  }

  /** An add_order request with in-range values decodes to exactly the order the client
      described. */
  lemma ClientAddDecodes(orderId: int, side: Side, price: int, quantity: int, orderType: OrderType)
    requires IsUInt64(orderId) && IsInt32(price) && IsInt32(quantity) && orderType.IsNamed()
    ensures var request := Request("add_order", AddOrderData(orderId, side, price, quantity, orderType));
      && ActionOf(request) == Ok("add_order")
      && DecodeOrder(Member(request, "data")) == Ok(NewOrder(orderType, orderId, side, price, quantity))
  {
    var data := AddOrderData(orderId, side, price, quantity, orderType);
    assert "orderId" in data.members;
    assert Truthy(data);
    OrderTypeCodeRoundTrip(orderType);
    ProtocolLaws.DecodeDefaults(data);
  }

  /** A cancel_order request for an id in range decodes to that id. */
  lemma ClientCancelDecodes(orderId: int)
    requires IsUInt64(orderId)
    ensures var request := Request("cancel_order", CancelOrderData(orderId));
      && ActionOf(request) == Ok("cancel_order")
      && DecodeCancel(Member(request, "data")) == Ok(orderId)
  {
    assert Truthy(CancelOrderData(orderId));
  }

  /** The order the engine builds from a validated gateway order. */
  function EngineOrder(order: OrderRequest): OrderView
    requires IsUInt64(order.orderId)
  {
    NewOrder(OrderTypeFromCode(order.orderType), order.orderId, EngineSide(order.side), order.price, order.quantity)
  }

  /** POST /orders through a connected client: the engine's book becomes the book after
      AddOrder, and the gateway answers 200 exactly when the book accepted the order,
      with the number of trades it produced. */
  lemma GatewayAddEndToEnd(b: Book, order: OrderRequest)
    requires ValidSide(order) && ValidType(order)
    requires IsUInt64(order.orderId) && IsInt32(order.price) && IsInt32(order.quantity)
    ensures AddOrderSent(order, true).Some?
    ensures var engine := Respond(b, AddOrderSent(order, true));
      var out := Add(b, EngineOrder(order));
      var r := AddOrderRoute(order, true, Ok(engine.1));
      && engine.0 == out.book
      && (r.status == 200 <==> out.result.Ok?)
      && (out.result.Ok? ==> r.body.members["trades_count"] == JInt(|out.result.value|))
      && (out.result.Err? ==> r == HttpError(400, JString(out.result.message)))
  {
    var side, orderType := EngineSide(order.side), OrderTypeFromCode(order.orderType);
    assert side.Code() == order.side && orderType.Code() == order.orderType;
    ClientAddDecodes(order.orderId, side, order.price, order.quantity, orderType);
    var root := AddOrderSent(order, true).value;
    ProtocolLaws.AddReplyReports(b, root, EngineOrder(order));
  }

  /** DELETE /orders/{id} for an id in range is 200 whether or not the order rested; an
      id the book does not hold leaves it unchanged. */
  lemma GatewayCancelEndToEnd(b: Book, orderId: int)
    requires IsUInt64(orderId)
    ensures var engine := Respond(b, Some(Request("cancel_order", CancelOrderData(orderId))));
      && engine.0 == Cancel(b, orderId)
      && CancelRoute(orderId, true, Ok(engine.1)).status == 200
      && (orderId !in b.index ==> engine.0 == b)
  {
    ClientCancelDecodes(orderId);
  }

  /** A negative id passes the gateway, and the engine rejects it while reading it: 400
      with jsoncpp's range message, the book untouched. */
  lemma GatewayNegativeCancelId(b: Book, orderId: int)
    requires orderId < 0 && IsInt64(orderId)
    ensures var engine := Respond(b, Some(Request("cancel_order", CancelOrderData(orderId))));
      && engine.0 == b
      && CancelRoute(orderId, true, Ok(engine.1)) == HttpError(400, JString("LargestInt out of UInt64 range"))
  {
    var request := Request("cancel_order", CancelOrderData(orderId));
    assert Truthy(CancelOrderData(orderId));
    assert DecodeCancel(Member(request, "data")) == Err("LargestInt out of UInt64 range");
    assert Respond(b, Some(request)) == (b, ErrorReply("LargestInt out of UInt64 range"));
  }

  /** GET /health reports the number of resting orders. */
  lemma HealthReportsSize(b: Book)
    ensures var engine := Respond(b, Some(Request("get_size", JNull)));
      && engine.0 == b
      && HealthRoute(true, Ok(engine.1)) ==
           Response(200, JObject(map["status" := JString("healthy"), "orderbook_size" := JInt(|b.index|)]))
  {
  }
}

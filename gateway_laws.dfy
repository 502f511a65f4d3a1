/** What the gateway promises: validation before any contact with the engine, and how
    engine replies and exceptions become HTTP status codes. */
module GatewayLaws {
  import opened Types
  import opened JsonValues
  import opened Client
  import opened Gateway

  /** An order with a bad side or type is refused with 400 before the engine is
      contacted: nothing is sent and the engine's outcome does not matter. The side is
      checked first. */
  lemma ValidationBeforeContact(order: OrderRequest, connected: bool, exchange: Result<Json>, other: Result<Json>)
    requires !(ValidSide(order) && ValidType(order))
    ensures AddOrderSent(order, connected) == None
    ensures AddOrderRoute(order, connected, exchange) == AddOrderRoute(order, connected, other)
    ensures AddOrderRoute(order, connected, exchange) ==
      HttpError(400, JString(if !ValidSide(order) then SideInvalid else TypeInvalid))
  {
  }

  /** A valid order whose exchange raised (including "Not connected to server") is 500
      with the exception's message. */
  lemma AddExceptionsAre500(order: OrderRequest, connected: bool, exchange: Result<Json>)
    requires ValidSide(order) && ValidType(order)
    requires SendResult(connected, exchange).Err?
    ensures AddOrderRoute(order, connected, exchange) == InternalError(SendResult(connected, exchange).message)
    ensures !connected ==> AddOrderRoute(order, connected, exchange) == InternalError(NotConnected)
  {
  }

  /** A valid order answered with an object: 200 unless the reply carries a false
      success flag (a missing flag counts as success); 400 carries the engine's error or
      "Order failed"; 200 carries the engine's trade count and trades, defaulting to 0
      and []. */
  lemma AddStatusMapping(order: OrderRequest, result: Json)
    requires ValidSide(order) && ValidType(order) && result.JObject?
    ensures var r := AddOrderRoute(order, true, Ok(result));
      var m := result.members;
      && (r.status == 200 <==> "success" !in m || Truthy(m["success"]))
      && (r.status == 400 ==>
           r == HttpError(400, if "error" in m then m["error"] else JString("Order failed")))
      && (r.status == 200 ==>
           && r.body.members["success"] == JBool(true)
           && r.body.members["trades_count"] == (if "trades_count" in m then m["trades_count"] else JInt(0))
           && r.body.members["trades"] == (if "trades" in m then m["trades"] else JArray([])))
  {
  }

  /** A cancel reply: 200 only with a true success flag (a missing flag counts as
      failure), with the message naming the id; 400 carries the engine's error or
      "Cancel failed". */
  lemma CancelStatusMapping(orderId: int, result: Json)
    requires result.JObject?
    ensures var r := CancelRoute(orderId, true, Ok(result));
      var m := result.members;
      && (r.status == 200 <==> "success" in m && Truthy(m["success"]))
      && (r.status == 200 ==>
           r.body == JObject(map["success" := JBool(true), "message" := JString("Order " + IntToString(orderId) + " cancelled")]))
      && (r.status == 400 ==>
           r == HttpError(400, if "error" in m then m["error"] else JString("Cancel failed")))
  {
  }

  /** A snapshot without a true success flag is 500, whatever the size query would say;
      otherwise total_orders is the separate size query's answer, not anything in the
      snapshot. */
  lemma SnapshotMapping(book: Json, sizeExchange: Result<Json>)
    requires book.JObject?
    ensures var m := book.members;
      !("success" in m && Truthy(m["success"])) ==>
        OrderBookRoute(true, Ok(book), sizeExchange) == HttpError(500, JString(SnapshotFailed))
    ensures var m := book.members;
      "success" in m && Truthy(m["success"]) && sizeExchange.Ok? && sizeExchange.value.JObject? ==>
        var r := OrderBookRoute(true, Ok(book), sizeExchange);
        && r.status == 200
        && r.body.members["total_orders"] == SizeOf(sizeExchange).value
        && r.body.members["bids"] == (if "bids" in m then m["bids"] else JArray([]))
        && r.body.members["asks"] == (if "asks" in m then m["asks"] else JArray([]))
  {
  }

  /** Health: 200 with the size exactly when the size query succeeds, 503 with the
      exception otherwise. */
  lemma HealthMapping(connected: bool, exchange: Result<Json>)
    ensures var r := HealthRoute(connected, exchange);
      var size := SizeOf(SendResult(connected, exchange));
      && (r.status == 200 <==> size.Ok?)
      && (size.Ok? ==> r.body.members["orderbook_size"] == size.value)
      && (size.Err? ==> r == HttpError(503, JString(UnavailablePrefix + size.message)))
      && (!connected ==> r == HttpError(503, JString(UnavailablePrefix + NotConnected)))
  {
  }

  /** GET /orderbook/size: 200 with the reply's size (0 when the reply has none) exactly
      when the size query succeeds, 500 with the exception's message otherwise. */
  lemma SizeMapping(connected: bool, exchange: Result<Json>)
    ensures var r := SizeRoute(connected, exchange);
      var size := SizeOf(SendResult(connected, exchange));
      && (r.status == 200 <==> size.Ok?)
      && (size.Ok? ==> r.body == JObject(map["size" := size.value]))
      && (size.Err? ==> r == HttpError(500, JString(InternalErrorPrefix + size.message)))
      && (!connected ==> r == HttpError(500, JString(InternalErrorPrefix + NotConnected)))
      && (connected && exchange.Ok? && exchange.value.JObject? ==>
           r == Response(200, JObject(map["size" :=
             if "size" in exchange.value.members then exchange.value.members["size"] else JInt(0)])))
  {
  }

  /** What /orders answers once the side and the type have passed validation. */
  function Forwarded(connected: bool, exchange: Result<Json>): Response
  {
    match SendResult(connected, exchange)
    case Err(message) => InternalError(message)
    case Ok(result) => AddResult(result)
  }

  /** The buy and sell routes never fail the side check: they answer the type error or
      forward the order, sending side 0 and side 1 respectively. */
  lemma BuySellFixSide(orderId: int, price: int, quantity: int, orderType: int, connected: bool, exchange: Result<Json>)
    ensures BuyRoute(orderId, price, quantity, orderType, connected, exchange) ==
      if 0 <= orderType <= 4 then Forwarded(connected, exchange) else HttpError(400, JString(TypeInvalid))
    ensures SellRoute(orderId, price, quantity, orderType, connected, exchange) ==
      if 0 <= orderType <= 4 then Forwarded(connected, exchange) else HttpError(400, JString(TypeInvalid))
    ensures var sent := AddOrderSent(OrderRequest(orderId, 0, price, quantity, orderType), connected);
      sent.Some? ==> sent.value.members["data"].members["side"] == JInt(0)
    ensures var sent := AddOrderSent(OrderRequest(orderId, 1, price, quantity, orderType), connected);
      sent.Some? ==> sent.value.members["data"].members["side"] == JInt(1)
  {
  }
}

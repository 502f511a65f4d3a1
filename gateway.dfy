/** The HTTP gateway (fastapi_server.py): each route as a function from its input, whether
    the shared client holds a socket, and the outcome of the engine exchange, to the HTTP
    response. An HTTPException is a response with its status and `{"detail": ...}`. */
module Gateway {
  import opened Types
  import opened JsonValues
  import opened Client

  /** The body of POST /orders. */
  datatype OrderRequest = OrderRequest(orderId: int, side: int, price: int, quantity: int, orderType: int)

  datatype Response = Response(status: int, body: Json)

  const SideInvalid := "side must be 0 (BUY) or 1 (SELL)"
  const TypeInvalid := "Invalid order_type"
  const InternalErrorPrefix := "Internal error: "
  const UnavailablePrefix := "OrderBook server unavailable: "
  const SnapshotFailed := "Failed to retrieve order book"

  function HttpError(status: int, detail: Json): Response
  {
    Response(status, JObject(map["detail" := detail]))
  }

  function InternalError(message: string): Response
  {
    HttpError(500, JString(InternalErrorPrefix + message))
  }

  predicate ValidSide(order: OrderRequest) { order.side == 0 || order.side == 1 }
  predicate ValidType(order: OrderRequest) { 0 <= order.orderType <= 4 }

  /** The request add_order sends to the engine: none when validation fails or the client
      holds no socket. */
  function AddOrderSent(order: OrderRequest, connected: bool): Option<Json>
  {
    if ValidSide(order) && ValidType(order) && connected then
      Some(Request("add_order", AddOrderData(order.orderId, EngineSide(order.side), order.price, order.quantity, OrderTypeFromCode(order.orderType))))
    else None
  }

  /** The response to an engine reply to add_order: a reply without a success key counts
      as success. */
  function AddResult(result: Json): Response
  {
    match PyGet(result, "success", JBool(true))
    case Err(message) => InternalError(message)
    case Ok(success) =>
      if !Truthy(success) then HttpError(400, PyGet(result, "error", JString("Order failed")).value)
      else Response(200, JObject(map[
        "success" := JBool(true),
        "message" := JString("Order added successfully"),
        "trades_count" := PyGet(result, "trades_count", JInt(0)).value,
        "trades" := PyGet(result, "trades", JArray([])).value]))
  }

  /** POST /orders. */
  function AddOrderRoute(order: OrderRequest, connected: bool, exchange: Result<Json>): (r: Response)
    ensures r.status in {200, 400, 500}
  {
    if !ValidSide(order) then HttpError(400, JString(SideInvalid))
    else if !ValidType(order) then HttpError(400, JString(TypeInvalid))
    else
      match SendResult(connected, exchange)
      case Err(message) => InternalError(message)
      case Ok(result) => AddResult(result)
  }

  /** DELETE /orders/{order_id}: a reply without a success key counts as failure. */
  function CancelRoute(orderId: int, connected: bool, exchange: Result<Json>): (r: Response)
    ensures r.status in {200, 400, 500}
  {
    match SendResult(connected, exchange)
    case Err(message) => InternalError(message)
    case Ok(result) =>
      match PyGet(result, "success", JBool(false))
      case Err(message) => InternalError(message)
      case Ok(success) =>
        if !Truthy(success) then HttpError(400, PyGet(result, "error", JString("Cancel failed")).value)
        else Response(200, JObject(map[
          "success" := JBool(true),
          "message" := JString("Order " + IntToString(orderId) + " cancelled")]))
  }

  /** GET /orderbook: the snapshot's levels, and the count from a second, get_size
      exchange. */
  function OrderBookRoute(connected: bool, snapshot: Result<Json>, sizeExchange: Result<Json>): (r: Response)
    ensures r.status in {200, 500}
  {
    match SendResult(connected, snapshot)
    case Err(message) => InternalError(message)
    case Ok(book) =>
      match PyGet(book, "success", JBool(false))
      case Err(message) => InternalError(message)
      case Ok(success) =>
        if !Truthy(success) then HttpError(500, JString(SnapshotFailed))
        else
          var bids := PyGet(book, "bids", JArray([])).value;
          var asks := PyGet(book, "asks", JArray([])).value;
          match SizeOf(SendResult(connected, sizeExchange))
          case Err(message) => InternalError(message)
          case Ok(size) => Response(200, JObject(map["bids" := bids, "asks" := asks, "total_orders" := size]))
  }

  /** GET /orderbook/size. */
  function SizeRoute(connected: bool, exchange: Result<Json>): (r: Response)
    ensures r.status in {200, 500}
  {
    match SizeOf(SendResult(connected, exchange))
    case Err(message) => InternalError(message)
    case Ok(size) => Response(200, JObject(map["size" := size]))
  }

  /** GET /health: any failure of the size query is 503. */
  function HealthRoute(connected: bool, exchange: Result<Json>): (r: Response)
    ensures r.status in {200, 503}
  {
    match SizeOf(SendResult(connected, exchange))
    case Err(message) => HttpError(503, JString(UnavailablePrefix + message))
    case Ok(size) => Response(200, JObject(map["status" := JString("healthy"), "orderbook_size" := size]))
  }

  /** POST /orders/buy: /orders with the side fixed to 0. */
  function BuyRoute(orderId: int, price: int, quantity: int, orderType: int, connected: bool, exchange: Result<Json>): Response
  {
    AddOrderRoute(OrderRequest(orderId, 0, price, quantity, orderType), connected, exchange)
  }

  /** POST /orders/sell: /orders with the side fixed to 1. */
  function SellRoute(orderId: int, price: int, quantity: int, orderType: int, connected: bool, exchange: Result<Json>): Response
  {
    AddOrderRoute(OrderRequest(orderId, 1, price, quantity, orderType), connected, exchange)
  }
}

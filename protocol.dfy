/** The engine's request protocol (tcp_server.cpp): how a parsed request is mapped onto
    book operations and what the reply holds, as functions from the book and the
    request to the new book and the reply. The OrderBookServer class in Server is proved
    against these functions. */
module Protocol {
  import opened Types
  import opened Orders
  import opened BookSpec
  import opened JsonValues

  const InvalidJson := "Invalid JSON"
  const UnknownAction := "Unknown action: "
  const OrderCancelled := "Order cancelled"

  /** The reply to text that does not parse: an error and no success flag. */
  const InvalidJsonReply := JObject(map["error" := JString(InvalidJson)])

  /** The reply built by the catch clause: the exception's message and a false flag. */
  function ErrorReply(message: string): (r: Json)
    ensures r.JObject? && r.members.Keys == {"error", "success"}
    ensures r.members["success"] == JBool(false) && r.members["error"] == JString(message)
  {
    JObject(map["error" := JString(message), "success" := JBool(false)])
  }

  /** The reply of a handler, or the catch clause's reply when the handler threw. */
  function Caught(r: Result<Json>): Json
  {
    match r
    case Ok(reply) => reply
    case Err(message) => ErrorReply(message)
  }

  /** The action named by a request: `root.get("action", "").asString()`. It throws when
      the root is neither an object nor null, and when the action is an array or an
      object. */
  function ActionOf(root: Json): (r: Result<string>)
    ensures root.JNull? ==> r == Ok("")
    ensures root.JObject? && "action" !in root.members ==> r == Ok("")
    ensures root.JObject? && "action" in root.members && root.members["action"].JString? ==>
      r == Ok(root.members["action"].s)
    ensures r.Err? <==>
      || !(root.JNull? || root.JObject?)
      || (root.JObject? && "action" in root.members &&
          (root.members["action"].JArray? || root.members["action"].JObject?))
  {
    var action :- Get(root, "action", JString(""));
    AsString(action)
  }

  // ---------------------------------------------------------------------------
  // add_order

  /** handleAddOrder's reading of the request data: each field defaults to 0, the type and
      the side are cast from their integers, the id is read as an unsigned 64-bit value and
      the price and the quantity as 32-bit values. Data that is neither an object nor null
      makes the first `get` throw; otherwise the first conversion that throws decides the
      message. */
  function DecodeOrder(data: Json): (r: Result<OrderView>)
    ensures r.Ok? ==>
      && IsUInt64(r.value.orderId) && IsInt32(r.value.price) && IsInt32(r.value.initialQuantity)
      && r.value.remainingQuantity == r.value.initialQuantity
    ensures !(data.JNull? || data.JObject?) ==> r == Err(FindNeedsObject)
  {
    if !(data.JNull? || data.JObject?) then Err(FindNeedsObject)
    else
      var typeCode :- AsInt(GetFrom(data, "orderType", JInt(0)));
      var orderId :- AsUInt64(GetFrom(data, "orderId", JInt(0)));
      var sideCode :- AsInt(GetFrom(data, "side", JInt(0)));
      var price :- AsInt(GetFrom(data, "price", JInt(0)));
      var quantity :- AsInt(GetFrom(data, "quantity", JInt(0)));
      Ok(NewOrder(OrderTypeFromCode(typeCode), orderId, EngineSide(sideCode), price, quantity))
  }

  /** One trade as reported: both ids, and the price and the quantity of the bid side. */
  function TradeJson(t: Trade): Json
  {
    JObject(map[
      "bid_order_id" := JInt(t.bidTrade.orderId),
      "ask_order_id" := JInt(t.askTrade.orderId),
      "price" := JInt(t.bidTrade.price),
      "quantity" := JInt(t.bidTrade.quantity)])
  }

  function TradesJson(trades: seq<Trade>): (r: seq<Json>)
    ensures |r| == |trades|
    ensures forall i :: 0 <= i < |trades| ==> r[i] == TradeJson(trades[i])
  {
    seq(|trades|, i requires 0 <= i < |trades| => TradeJson(trades[i]))
  }

  /** The reply to an accepted add: the flag, the number of trades and the trades. */
  function AddReply(trades: seq<Trade>): Json
  {
    JObject(map[
      "success" := JBool(true),
      "trades_count" := JInt(|trades|),
      "trades" := JArray(TradesJson(trades))])
  }

  /** handleAddOrder: decode, add, report; an exception from decoding or from the book is
      passed on with the book as it is. */
  function HandleAdd(b: Book, data: Json): (Book, Result<Json>)
  {
    match DecodeOrder(data)
    case Err(message) => (b, Err(message))
    case Ok(o) =>
      var out := Add(b, o);
      match out.result
      case Ok(trades) => (out.book, Ok(AddReply(trades)))
      case Err(message) => (out.book, Err(message))
  }

  // ---------------------------------------------------------------------------
  // cancel_order, get_size, get_orderbook

  /** handleCancelOrder's reading of the request data: the id, 0 when absent. */
  function DecodeCancel(data: Json): (r: Result<OrderId>)
    ensures r.Ok? ==> IsUInt64(r.value)
    ensures !(data.JNull? || data.JObject?) ==> r == Err(FindNeedsObject)
  {
    var idField :- Get(data, "orderId", JInt(0));
    AsUInt64(idField)
  }

  const CancelReply := JObject(map["success" := JBool(true), "message" := JString(OrderCancelled)])

  /** handleCancelOrder: the reply does not depend on whether the id was resting. */
  function HandleCancel(b: Book, data: Json): (Book, Result<Json>)
  {
    match DecodeCancel(data)
    case Err(message) => (b, Err(message))
    case Ok(id) => (Cancel(b, id), Ok(CancelReply))
  }

  function SizeReply(size: nat): Json
  {
    JObject(map["size" := JInt(size), "success" := JBool(true)])
  }

  function LevelJson(info: LevelInfo): Json
  {
    JObject(map["price" := JInt(info.price), "quantity" := JInt(info.quantity)])
  }

  function LevelsJson(infos: seq<LevelInfo>): (r: seq<Json>)
    ensures |r| == |infos|
    ensures forall i :: 0 <= i < |infos| ==> r[i] == LevelJson(infos[i])
  {
    seq(|infos|, i requires 0 <= i < |infos| => LevelJson(infos[i]))
  }

  /** handleGetOrderBook's reply: the level summaries of both sides and the flag. */
  function SnapshotReply(infos: OrderBookLevelInfos): Json
  {
    JObject(map[
      "bids" := JArray(LevelsJson(infos.bids)),
      "asks" := JArray(LevelsJson(infos.asks)),
      "success" := JBool(true)])
  }

  function UnknownActionReply(action: string): Json
  {
    JObject(map["error" := JString(UnknownAction + action)])
  }

  // ---------------------------------------------------------------------------
  // processRequest

  /** The dispatch inside processRequest's try block, for a root whose action was read. */
  function Dispatch(b: Book, root: Json, action: string): (Book, Json)
  {
    if action == "add_order" then
      var (b', r) := HandleAdd(b, Member(root, "data"));
      (b', Caught(r))
    else if action == "cancel_order" then
      var (b', r) := HandleCancel(b, Member(root, "data"));
      (b', Caught(r))
    else if action == "get_size" then
      (b, SizeReply(|b.index|))
    else if action == "get_orderbook" then
      (b, SnapshotReply(OrderBookLevelInfos(Summaries(b.bids), Summaries(b.asks))))
    else
      (b, UnknownActionReply(action))
  }

  /** processRequest: `None` is text that does not parse. Reading the action throws
      outside the try block in the engine; here that exception gets the catch clause's
      reply (see `Findings.ProcessRequestAsWritten`). */
  function Respond(b: Book, request: Option<Json>): (Book, Json)
  {
    match request
    case None => (b, InvalidJsonReply)
    case Some(root) =>
      match ActionOf(root)
      case Err(message) => (b, ErrorReply(message))
      case Ok(action) => Dispatch(b, root, action)
  }
}

/** The Python client of the engine (orderbook_client.py): a socket field that connect
    and disconnect set and clear, and the request objects it sends. The socket exchange
    itself (send, recv, json.loads) is a parameter: the decoded reply, or the message of
    the exception it raised. */
module Client {
  import opened Types
  import opened JsonValues

  const NotConnected := "Not connected to server"

  /** The socket object the client holds, for the address it was created for. */
  datatype Socket = Socket(host: string, port: int)

  /** `data or {}`: a missing or empty data dict is sent as an empty object. */
  function DataOrEmpty(data: Json): (r: Json)
    ensures Truthy(data) ==> r == data
    ensures !Truthy(data) ==> r == JObject(map[])
  {
    if Truthy(data) then data else JObject(map[])
  }

  /** The request object _send_request sends. */
  function Request(action: string, data: Json): (r: Json)
    ensures r.JObject? && r.members.Keys == {"action", "data"}
    ensures r.members["action"] == JString(action)
    ensures r.members["data"].JObject? || Truthy(r.members["data"])
  {
    JObject(map["action" := JString(action), "data" := DataOrEmpty(data)])
  }

  /** What _send_request returns: the exception "Not connected to server" when the
      client holds no socket, and otherwise whatever the exchange produced. */
  function SendResult(connected: bool, exchange: Result<Json>): (r: Result<Json>)
    ensures !connected ==> r == Err(NotConnected)
    ensures connected ==> r == exchange
  {
    if connected then exchange else Err(NotConnected)
  }

  /** add_order's data: the caller's id, price and quantity, and the integer values of
      the side and the type. */
  function AddOrderData(orderId: int, side: Side, price: int, quantity: int, orderType: OrderType): (r: Json)
    ensures r.JObject? && r.members.Keys == {"orderId", "side", "price", "quantity", "orderType"}
    ensures r.members["side"] == JInt(side.Code()) && r.members["orderType"] == JInt(orderType.Code())
  {
    JObject(map[
      "orderId" := JInt(orderId),
      "side" := JInt(side.Code()),
      "price" := JInt(price),
      "quantity" := JInt(quantity),
      "orderType" := JInt(orderType.Code())])
  }

  /** cancel_order's data: the id and nothing else. */
  function CancelOrderData(orderId: int): (r: Json)
    ensures r.JObject? && r.members.Keys == {"orderId"} && r.members["orderId"] == JInt(orderId)
  {
    JObject(map["orderId" := JInt(orderId)])
  }

  /** get_orderbook_size's result: the reply's size, 0 when the key is absent. */
  function SizeOf(reply: Result<Json>): (r: Result<Json>)
    ensures reply.Err? ==> r == reply
    ensures reply.Ok? && reply.value.JObject? ==>
      r == Ok(if "size" in reply.value.members then reply.value.members["size"] else JInt(0))
  {
    var response :- reply;
    PyGet(response, "size", JInt(0))
  }

  class OrderBookClient {
    const host: string
    const port: int
    /** The socket, or None before connect and after disconnect. */
    var socket: Option<Socket>

    constructor (host: string := "localhost", port: int := 9999)
      ensures this.host == host && this.port == port && socket == None
    {
      this.host := host;
      this.port := port;
      socket := None;
    }

    /** connect: the socket field is assigned before the connection is attempted, so it
        stays set when the attempt fails; `reachable` is whether it succeeds. */
    method Connect(reachable: bool) returns (connected: bool)
      modifies this
      ensures socket == Some(Socket(host, port))
      ensures connected == reachable
    {
      socket := Some(Socket(host, port));
      connected := reachable;
    }

    /** disconnect: closes and forgets the socket; without one it does nothing. */
    method Disconnect()
      modifies this
      ensures socket == None
      ensures old(socket) == None ==> unchanged(this)
    {
      if socket.Some? {
        socket := None;
      }
    }

    /** _send_request: `sent` is what goes to the socket (nothing when the client holds
        no socket, which raises before building the request). */
    method SendRequest(action: string, data: Json, exchange: Result<Json>) returns (sent: Option<Json>, reply: Result<Json>)
      ensures socket.None? ==> sent == None && reply == Err(NotConnected)
      ensures socket.Some? ==> sent == Some(Request(action, data)) && reply == exchange
    {
      if socket.None? {
        return None, Err(NotConnected);
      }
      var request := Request(action, data);
      sent := Some(request);
      reply := exchange;
    }

    method AddOrder(orderId: int, side: Side, price: int, quantity: int, orderType: OrderType, exchange: Result<Json>)
      returns (sent: Option<Json>, reply: Result<Json>)
      ensures sent == (if socket.Some? then Some(Request("add_order", AddOrderData(orderId, side, price, quantity, orderType))) else None)
      ensures reply == SendResult(socket.Some?, exchange)
    {
      var data := AddOrderData(orderId, side, price, quantity, orderType);
      sent, reply := SendRequest("add_order", data, exchange);
    }

    method CancelOrder(orderId: int, exchange: Result<Json>) returns (sent: Option<Json>, reply: Result<Json>)
      ensures sent == (if socket.Some? then Some(Request("cancel_order", CancelOrderData(orderId))) else None)
      ensures reply == SendResult(socket.Some?, exchange)
    {
      sent, reply := SendRequest("cancel_order", CancelOrderData(orderId), exchange);
    }

    method GetOrderBookSize(exchange: Result<Json>) returns (sent: Option<Json>, size: Result<Json>)
      ensures sent == (if socket.Some? then Some(Request("get_size", JNull)) else None)
      ensures size == SizeOf(SendResult(socket.Some?, exchange))
    {
      var reply;
      sent, reply := SendRequest("get_size", JNull, exchange);
      if reply.Err? {
        return sent, reply;
      }
      size := PyGet(reply.value, "size", JInt(0));
    }

    method GetOrderBook(exchange: Result<Json>) returns (sent: Option<Json>, reply: Result<Json>)
      ensures sent == (if socket.Some? then Some(Request("get_orderbook", JNull)) else None)
      ensures reply == SendResult(socket.Some?, exchange)
    {
      sent, reply := SendRequest("get_orderbook", JNull, exchange);
    }
  }

  /** A failed connect still leaves a socket in place: a later request is sent on it
      instead of being refused with "Not connected to server". */
  method FailedConnectStillSends(action: string, data: Json, exchange: Result<Json>) returns (sent: Option<Json>, reply: Result<Json>)
    ensures sent == Some(Request(action, data)) && reply == exchange
  {
    var client := new OrderBookClient();
    var connected := client.Connect(false);
    sent, reply := client.SendRequest(action, data, exchange);
  }

  /** After disconnect every request is refused before anything is sent, whatever the
      state before. */
  method DisconnectedRefuses(client: OrderBookClient, action: string, data: Json, exchange: Result<Json>) returns (sent: Option<Json>, reply: Result<Json>)
    modifies client
    ensures sent == None && reply == Err(NotConnected)
  {
    client.Disconnect();
    sent, reply := client.SendRequest(action, data, exchange);
  }
}

# Order book engine, TCP protocol, Python client and HTTP gateway, modelled in Dafny

The system is a price-time-priority limit order book written in C++. It is served over
TCP as one JSON request and one JSON reply per message. A Python client speaks that
protocol, and a FastAPI gateway turns HTTP calls into client calls. This project models
each of the four layers in the form its code takes, and proves what each promises.

- **The book.** `OrderBooks.OrderBook` (order_book.dfy) is a class whose fields are the
  bid levels (best, that is highest, price first), the ask levels (lowest price first)
  and the id index. Its methods `AddOrder`, `CancelOrder`, `MatchOrder`, `MatchOrders`,
  `Size` and `GetOrderInfos` update those fields in place. Each method is proved equal to
  a specification function in `BookSpec` (book_spec.dfy) on the value `Book`. Those
  functions are `Add`, `Cancel`, `Modify`, `MatchOrders` and `Summaries`. `Valid` holds
  when the levels are sorted, no level is empty, the index agrees with the resting orders
  one to one, and the book is uncrossed. The laws about the functions are in
  `BookLaws`, `InsertProps`, `CancelProps` and `MatchProps`. `Orders.Order` is the order
  object, with `Fill` and `ToGoodTillCancel`.
- **The engine protocol.** `Protocol` (protocol.dfy) decodes requests and builds
  replies. It models jsoncpp's `get`, `asInt`, `asUInt64` and `asString` together with
  their exception messages (json.dfy). `Server.OrderBookServer` (server.dfy) is the TCP
  server's request handler, proved equal to `Protocol.Respond`. `Respond` is the
  corrected handler. It answers an exception raised while reading the action with the
  catch clause's error reply, and the book it drives cancels an order on the side
  recorded when the order was inserted. The code as written does neither; see the
  tcp_server.cpp:26 and OrderBook.cpp:117-156 rows under "## Findings". `ProtocolLaws`
  states what a reply says about the book.
- **The client.** `Client.OrderBookClient` (client.dfy) has the `socket` field that
  `connect` and `disconnect` set and clear. The socket exchange is a parameter: the
  decoded reply, or the message of the exception it raised.
- **The gateway.** `Gateway` (gateway.dfy) models each route as a function from its
  input and the engine's answer to an HTTP status and body. `GatewayLaws` states the
  status mapping. `System` (system.dfy) connects all three programs: what the client
  sends is what the engine decodes, and the gateway's status follows what the book did.

Integers are unbounded in the book. The engine's 32-bit and unsigned 64-bit ranges apply
where it reads JSON, through `asInt` and `asUInt64`.

## Model

| member | source | states |
|---|---|---|
| Types.OrderTypeFromCode | orderbook_backend/tcp_server.cpp:53 | the cast of the wire integer keeps the code, and names a listed type exactly for 0..4 |
| Types.OrderTypeCodeRoundTrip | orderbook_backend/tcp_server.cpp:53 | every type the cast can produce decodes back to itself |
| Types.EngineSide | orderbook_backend/tcp_server.cpp:55 | a side code is Buy exactly when it is 0; codes 0 and 1 keep their value |
| Orders.NewOrder | orderbook_backend/Order.h:13-20 | a new order has its whole quantity remaining and nothing filled |
| Orders.OrderView.Fill | orderbook_backend/Order.h:58-64 | the filled quantity grows by the amount; the order is filled exactly when the whole remainder traded; nothing else changes |
| Orders.OrderView.AsGoodTillCancel | orderbook_backend/Order.h:66-73 | the order becomes GoodTillCancel at the new price; nothing else changes |
| Orders.Order.constructor | orderbook_backend/Order.h:13-20 | a new order object holds the new, unfilled order |
| Orders.Order.GetFilledQuantity | orderbook_backend/Order.h:50-52 | filled plus remaining is the initial quantity |
| Orders.Order.Fill | orderbook_backend/Order.h:58-64 | overfilling fails with "Cannot fill more than remaining quantity" and changes nothing; otherwise the remainder drops by the amount |
| Orders.Order.ToGoodTillCancel | orderbook_backend/Order.h:66-73 | a non-Market order fails with "Cannot convert non-market order" and is unchanged; a Market order is repriced and retyped |
| Orders.OrderModify.ToOrder | orderbook_backend/OrderModify.h:29-31 | the replacement has the request's id, side, price and quantity and the given type, unfilled |
| Orders.OrderModify.ToOrderPointer | orderbook_backend/OrderModify.h:29-31 | a fresh order object holding that replacement |
| BookSpec.FindLevel | orderbook_backend/OrderBook.h:19-20 | the position of the first level at the price, or the number of levels when there is none |
| BookSpec.Append | orderbook_backend/OrderBook.cpp:117-128 | appending an order never leaves the side without levels (its queue position is stated by `InsertProps.InsertFifo`) |
| BookSpec.Without | orderbook_backend/OrderBook.cpp:133-156 | removing by id never lengthens the queue and keeps only orders that were in it |
| BookSpec.FindOrder | orderbook_backend/OrderBook.h:24-27 | a found order is in the queue with the id; no order found means the id is absent |
| BookSpec.FillFront | orderbook_backend/OrderBook.cpp:37-58 | the queue loses one order exactly when the front order's whole remainder traded |
| BookSpec.TradeFronts | orderbook_backend/OrderBook.cpp:37-58 | each trade fills at least one front order completely, so the two front queues shrink and the inner loop ends |
| BookSpec.MatchFronts | orderbook_backend/OrderBook.cpp:37-58 | the inner loop stops when one of the two best levels is empty |
| BookSpec.Settle | orderbook_backend/OrderBook.cpp:60-66 | the levels' order-and-level count changes by the change of the front queue, and drops by one more when the emptied level is erased |
| BookSpec.Placed | orderbook_backend/OrderBook.cpp:99-113 | a Market order takes the best opposite price as GoodTillCancel, and fails with the engine's message when the opposite side is empty; other orders are unchanged |
| BookSpec.Summaries | orderbook_backend/OrderBook.cpp:170-190 | one entry per level, in level order, with the level's price and total remaining quantity |
| BookProps.CanMatchIff | orderbook_backend/OrderBook.cpp:4-19 | canMatch holds exactly when some opposite level has an acceptable price |
| BookProps.BestPrices | orderbook_backend/OrderBook.h:19-20 | the first level of each side has that side's best price |
| BookProps.RestingIsIndexed | orderbook_backend/OrderBook.h:24-31 | every resting order is in the index |
| BookProps.SizeCountsResting | orderbook_backend/OrderBook.cpp:168 | the index has exactly one entry per resting order |
| InsertProps.InsertWellformed | orderbook_backend/OrderBook.cpp:117-128 | inserting a new non-Market id keeps the book wellformed, with the id indexed at the order's side and price and the index one larger |
| InsertProps.InsertFifo | orderbook_backend/OrderBook.cpp:117-128 | the new order goes to the back of its level's queue; every other queue is unchanged |
| InsertProps.InsertCancelRoundTrip | orderbook_backend/OrderBook.cpp:117-156 | cancelling an order right after inserting it gives back the book |
| CancelProps.CancelWellformed | orderbook_backend/OrderBook.cpp:133-156 | a cancellation keeps the book wellformed and removes exactly that id from the index |
| CancelProps.CancelQueues | orderbook_backend/OrderBook.cpp:133-156 | a cancellation removes the order only from the queue at its own side and price; every other queue is unchanged |
| CancelProps.LookupResting | orderbook_backend/OrderBook.h:24-31 | an id is found through the index exactly when it is indexed, at the indexed side and price, and is never Market |
| MatchProps.MatchOrdersValid | orderbook_backend/OrderBook.cpp:21-86 | matching a wellformed book leaves a valid (uncrossed) book and reports only crossing trades of equal quantity on both sides |
| MatchProps.MatchLoopOk | orderbook_backend/OrderBook.cpp:24-67 | the outer loop ends with an uncrossed, wellformed book, only appends crossing trades, and every unit traded removes one unit from a bid and one from an ask |
| MatchProps.MatchFrontsOk | orderbook_backend/OrderBook.cpp:36-58 | the inner loop keeps the two front queues sound, appends only crossing trades and conserves quantity |
| MatchProps.KillFrontsValid | orderbook_backend/OrderBook.cpp:69-83 | cancelling FillAndKill orders at the fronts keeps the book valid and only shrinks the index |
| MatchProps.CancelValid | orderbook_backend/OrderBook.cpp:133-156 | a cancellation keeps a valid book valid |
| BookLaws.EmptyBookValid | orderbook_backend/OrderBook.h:29-31 | the new book is valid and empty |
| BookLaws.AddValid | orderbook_backend/OrderBook.cpp:88-131 | AddOrder keeps the book valid and reports only crossing trades; when it throws the book is unchanged |
| BookLaws.AddRejects | orderbook_backend/OrderBook.cpp:89-95 | a duplicate id, or a FillAndKill order that cannot match, changes nothing and reports no trades |
| BookLaws.MarketTakesBestPrice | orderbook_backend/OrderBook.cpp:99-113 | a placed Market buy takes the lowest ask price, and a sell the highest bid |
| BookLaws.AddConserves | orderbook_backend/OrderBook.cpp:21-131 | the incoming quantity is either traded, counted on both sides, or left resting, before the FillAndKill cancellation at the fronts |
| BookLaws.ModifyValid | orderbook_backend/OrderBook.cpp:158-166 | MatchOrder keeps the book valid, never throws, and ignores unknown ids |
| BookLaws.ModifyKeepsType | orderbook_backend/OrderBook.cpp:158-166 | the replacement has the new side, price and quantity and the type of the order it replaces |
| BookLaws.InfosOrdered | orderbook_backend/OrderBook.cpp:170-190 | bids are reported strictly by falling price and asks by rising price |
| OrderBooks.OrderBook.constructor | orderbook_backend/OrderBook.h:29-31 | a new book object is empty and valid |
| OrderBooks.OrderBook.MatchOrders | orderbook_backend/OrderBook.cpp:21-86 | the new fields and the trades are those of `BookSpec.MatchOrders`; the result is valid and the trades cross |
| OrderBooks.OrderBook.AddOrder | orderbook_backend/OrderBook.cpp:88-131 | the new fields and the result are those of `BookSpec.Add`; validity is kept; only a placed Market order object is repriced |
| OrderBooks.OrderBook.CancelOrder | orderbook_backend/OrderBook.cpp:133-156 | the new fields are those of `BookSpec.Cancel`; the id leaves the index and validity is kept |
| OrderBooks.OrderBook.MatchOrder | orderbook_backend/OrderBook.cpp:158-166 | the new fields and the trades are those of `BookSpec.Modify`; validity is kept and it never throws |
| OrderBooks.OrderBook.Size | orderbook_backend/OrderBook.cpp:168 | the size is the number of resting orders on both sides |
| OrderBooks.OrderBook.LevelQuantity | orderbook_backend/OrderBook.cpp:175-179 | the sum of the queue's remaining quantities |
| OrderBooks.OrderBook.GetOrderInfos | orderbook_backend/OrderBook.cpp:170-190 | the summaries of the bid levels and of the ask levels, in level order |
| JsonValues.NatToString | orderbook_backend/tcp_server.cpp:26 | decimal text: non-empty, digits only, no leading zero |
| JsonValues.NatToStringRoundTrip | orderbook_backend/tcp_server.cpp:26 | reading the decimal text back gives the number |
| JsonValues.Get | orderbook_backend/tcp_server.cpp:26 | `get` succeeds exactly on null and objects, giving the member or the default; otherwise it throws jsoncpp's find message |
| JsonValues.GetFrom | orderbook_backend/tcp_server.cpp:53-57 | on null or an object, the member or the default, as `get` gives it |
| JsonValues.Member | orderbook_backend/tcp_server.cpp:30-32 | `root["data"]`: the member, or null when there is none |
| JsonValues.AsInt | orderbook_backend/tcp_server.cpp:53-57 | an integer converts exactly when it fits in 32 bits; strings, arrays and objects throw |
| JsonValues.AsUInt64 | orderbook_backend/tcp_server.cpp:54 | an integer converts exactly when it fits in 64 unsigned bits; strings, arrays and objects throw |
| JsonValues.AsString | orderbook_backend/tcp_server.cpp:26 | null is empty, a string is itself, an array or an object throws |
| JsonValues.PyGet | fastapi_client/fastapi_server.py:90-97 | `dict.get`: the member or the default on an object; any other value raises |
| Protocol.ErrorReply | orderbook_backend/tcp_server.cpp:41-44 | the catch clause's reply: the message and a false success flag, nothing else |
| Protocol.ActionOf | orderbook_backend/tcp_server.cpp:26 | the action string, empty when absent or null; it throws exactly for a root that is not an object or null, and for an array or object action |
| Protocol.DecodeOrder | orderbook_backend/tcp_server.cpp:53-57 | a decoded order has an id in the unsigned 64-bit range, a 32-bit price and quantity, and nothing filled; data that is not an object or null throws the find message |
| Protocol.TradesJson | orderbook_backend/tcp_server.cpp:66-74 | one trade object per trade, in trade order |
| Protocol.DecodeCancel | orderbook_backend/tcp_server.cpp:83 | a decoded id is in the unsigned 64-bit range; data that is not an object or null throws |
| Protocol.LevelsJson | orderbook_backend/tcp_server.cpp:97-113 | one {price, quantity} object per level, in level order |
| ProtocolLaws.RespondKeepsValid | orderbook_backend/tcp_server.cpp:16-47 | no request makes a valid book invalid |
| ProtocolLaws.OnlyAddAndCancelChangeTheBook | orderbook_backend/tcp_server.cpp:28-40 | every request other than add_order and cancel_order leaves the book unchanged |
| ProtocolLaws.SuccessFlagIff | orderbook_backend/tcp_server.cpp:21-44 | every reply is an object; it has no success flag exactly for unparsable text and unknown actions, and an unknown action is named in the error |
| ProtocolLaws.SizeReplyCounts | orderbook_backend/tcp_server.cpp:33-35 | get_size reports the number of resting orders and changes nothing |
| ProtocolLaws.DecodeDefaults | orderbook_backend/tcp_server.cpp:53-57 | integer fields in range are taken as they are, and absent fields read as 0 |
| ProtocolLaws.EmptyDataDefaults | orderbook_backend/tcp_server.cpp:53-57 | empty or missing data is a GoodTillCancel buy with id, price and quantity 0 |
| ProtocolLaws.FieldRead | orderbook_backend/tcp_server.cpp:53-57 | an integer or absent field reads as that integer or 0 |
| ProtocolLaws.AddReplyReports | orderbook_backend/tcp_server.cpp:49-78 | add_order leaves the book as `Add` does, and replies with its trades or with its exception |
| ProtocolLaws.ReportedTrades | orderbook_backend/tcp_server.cpp:62-75 | in a valid book the count equals the number of trade objects, each carrying both ids, the bid's price (at or above the ask's), and the traded quantity |
| ProtocolLaws.RejectedAddReportsNoTrades | orderbook_backend/tcp_server.cpp:49-78 | a duplicate id or an unmatchable FillAndKill order is answered with success and zero trades |
| ProtocolLaws.FailedAddReportsError | orderbook_backend/tcp_server.cpp:41-44 | add_order fails exactly for a new Market order facing an empty side, with the engine's message, and the book is unchanged |
| ProtocolLaws.MalformedDataReportsError | orderbook_backend/tcp_server.cpp:41-44 | data that is neither an object nor null is answered with the find message and changes nothing |
| ProtocolLaws.CancelAlwaysSucceeds | orderbook_backend/tcp_server.cpp:80-90 | every decodable cancel is answered with success, whether or not the id rested; the id leaves the index. This is the corrected routing: as written, an order sent with a side other than 0 or 1 makes the cancellation throw or misbehave (OrderBook.cpp:117-156 under "## Findings") |
| ProtocolLaws.SnapshotOrdered | orderbook_backend/tcp_server.cpp:92-120 | get_orderbook changes nothing and reports one entry per level, bids by falling price and asks by rising price |
| ProtocolLaws.SideJson | orderbook_backend/tcp_server.cpp:97-113 | each side is reported as one entry per level, in the side's order, with the level's price and its total remaining quantity |
| Server.OrderBookServer.constructor | orderbook_backend/tcp_server.cpp:10-14 | the server starts with a fresh, empty book |
| Server.OrderBookServer.ProcessRequest | orderbook_backend/tcp_server.cpp:16-47 | the reply and the new book are those of the corrected handler `Protocol.Respond`; validity is kept. The code as written differs for a malformed action and for side codes other than 0 and 1 (the tcp_server.cpp:26 and OrderBook.cpp:117-156 rows under "## Findings") |
| Server.OrderBookServer.HandleAddOrder | orderbook_backend/tcp_server.cpp:49-78 | the reply and the new book are those of `Protocol.HandleAdd` |
| Server.OrderBookServer.TradesToJson | orderbook_backend/tcp_server.cpp:66-74 | the loop builds exactly the trade objects, in order |
| Server.OrderBookServer.HandleCancelOrder | orderbook_backend/tcp_server.cpp:80-90 | the reply and the new book are those of `Protocol.HandleCancel` |
| Server.OrderBookServer.HandleGetOrderBook | orderbook_backend/tcp_server.cpp:92-120 | the reply is the snapshot of the level summaries of both sides |
| Client.DataOrEmpty | fastapi_client/orderbook_client.py:49 | falsy data is sent as an empty object, anything else as it is |
| Client.Request | fastapi_client/orderbook_client.py:47-50 | the request has exactly an action and a data member |
| Client.SendResult | fastapi_client/orderbook_client.py:44-45 | without a socket the result is "Not connected to server", otherwise the exchange's outcome |
| Client.AddOrderData | fastapi_client/orderbook_client.py:71-77 | five members, with the side and the type as their integers |
| Client.CancelOrderData | fastapi_client/orderbook_client.py:83 | the id and nothing else |
| Client.SizeOf | fastapi_client/orderbook_client.py:86-89 | the reply's size, 0 when absent; an exception is passed on |
| Client.OrderBookClient.constructor | fastapi_client/orderbook_client.py:21-24 | the address is kept and there is no socket yet |
| Client.OrderBookClient.Connect | fastapi_client/orderbook_client.py:26-34 | the socket is set even when connecting fails; the result says whether it succeeded |
| Client.OrderBookClient.Disconnect | fastapi_client/orderbook_client.py:36-40 | afterwards there is no socket; without one nothing changes |
| Client.OrderBookClient.SendRequest | fastapi_client/orderbook_client.py:42-60 | without a socket nothing is sent and it raises; otherwise the request is sent and the exchange's outcome returned |
| Client.OrderBookClient.AddOrder | fastapi_client/orderbook_client.py:62-79 | sends add_order with the order's data |
| Client.OrderBookClient.CancelOrder | fastapi_client/orderbook_client.py:81-84 | sends cancel_order with the id |
| Client.OrderBookClient.GetOrderBookSize | fastapi_client/orderbook_client.py:86-89 | sends get_size and returns the reply's size |
| Client.OrderBookClient.GetOrderBook | fastapi_client/orderbook_client.py:91-93 | sends get_orderbook and returns the reply |
| Client.FailedConnectStillSends | fastapi_client/orderbook_client.py:26-34 | after a failed connect a request is still sent, not refused |
| Client.DisconnectedRefuses | fastapi_client/orderbook_client.py:36-45 | after disconnect every request is refused before anything is sent |
| Gateway.AddOrderRoute | fastapi_client/fastapi_server.py:71-103 | POST /orders answers 200, 400 or 500 only |
| Gateway.CancelRoute | fastapi_client/fastapi_server.py:106-120 | DELETE /orders/{id} answers 200, 400 or 500 only |
| Gateway.OrderBookRoute | fastapi_client/fastapi_server.py:123-141 | GET /orderbook answers 200 or 500 only |
| Gateway.SizeRoute | fastapi_client/fastapi_server.py:144-151 | GET /orderbook/size answers 200 or 500 only |
| GatewayLaws.SizeMapping | fastapi_client/fastapi_server.py:144-151 | 200 with the reply's size (0 when absent) exactly when the size query succeeds, otherwise 500 with the exception's message |
| Gateway.HealthRoute | fastapi_client/fastapi_server.py:61-68 | GET /health answers 200 or 503 only |
| GatewayLaws.ValidationBeforeContact | fastapi_client/fastapi_server.py:76-80 | a bad side or type is 400, checked side first, and nothing is sent to the engine |
| GatewayLaws.AddExceptionsAre500 | fastapi_client/fastapi_server.py:100-103 | an exception while talking to the engine is 500 with its message |
| GatewayLaws.AddStatusMapping | fastapi_client/fastapi_server.py:90-98 | 200 unless the reply has a false success flag (a missing flag counts as success); the error or "Order failed" on 400; trades and count, defaulted, on 200 |
| GatewayLaws.CancelStatusMapping | fastapi_client/fastapi_server.py:112-115 | 200 only with a true success flag, naming the id; the error or "Cancel failed" on 400 |
| GatewayLaws.SnapshotMapping | fastapi_client/fastapi_server.py:129-136 | without a true success flag 500; otherwise the snapshot's levels and the size query's count |
| GatewayLaws.HealthMapping | fastapi_client/fastapi_server.py:61-68 | 200 with the size exactly when the size query succeeds, 503 with the exception otherwise |
| GatewayLaws.BuySellFixSide | fastapi_client/fastapi_server.py:155-178 | the buy and sell routes never fail the side check and send side 0 and 1 |
| System.RequestRoundTrip | fastapi_client/orderbook_client.py:47-50 | the engine reads back the action and the data the client sent |
| System.ClientAddDecodes | fastapi_client/orderbook_client.py:62-79 | an in-range add_order decodes in the engine to exactly the order described |
| System.ClientCancelDecodes | fastapi_client/orderbook_client.py:81-84 | an in-range cancel_order decodes to its id |
| System.GatewayAddEndToEnd | fastapi_client/fastapi_server.py:71-103 | the engine's book becomes the book after AddOrder, and the gateway answers 200 exactly when the book accepted the order, with its trade count |
| System.GatewayCancelEndToEnd | fastapi_client/fastapi_server.py:106-120 | cancelling any in-range id is 200, and an unknown id leaves the book unchanged |
| System.GatewayNegativeCancelId | fastapi_client/fastapi_server.py:106-120 | a negative id passes the gateway and is 400 with the engine's range message, the book unchanged |
| System.HealthReportsSize | fastapi_client/fastapi_server.py:61-68 | health reports the number of resting orders |
| Findings.ModifyTypeReadAfterCancel | orderbook_backend/OrderBook.cpp:158-166 | the entry MatchOrder reads the type from exists before the cancellation and is gone after it, so as written every modification of a resting order reaches undefined behaviour |
| Findings.CancelStrandsSideTwo | orderbook_backend/OrderBook.cpp:133-156 | cancelling as written an order that rests on the asks but was stored with side 2 erases its index entry and leaves it on the asks; it throws `map::at` when no bid level has its price and is undefined behaviour otherwise |
| Findings.CancelAfterAddSideTwo | orderbook_backend/OrderBook.cpp:117-156 | an order sent with side 2 rests on the asks; cancel_order as written then answers with the `map::at` error, while the corrected cancellation empties the book |
| Findings.FillAndKillSideTwo | orderbook_backend/OrderBook.cpp:69-83 | a FillAndKill order sent with side 2 that partly trades ends, as written, in a throw from the clean-up after the book changed; the corrected add succeeds with the trade |
| Findings.CancelAsWrittenAgrees | orderbook_backend/OrderBook.cpp:133-156 | with the code of the side the order rests on, CancelOrder as written is the corrected cancellation |
| Findings.AddAsWrittenAgrees | orderbook_backend/OrderBook.cpp:88-131 | with side codes 0 and 1, AddOrder as written (including the clean-up) is the corrected Add |
| Findings.KillFrontsAgrees | orderbook_backend/OrderBook.cpp:69-83 | with side codes 0 and 1, the clean-up as written is KillFronts |
| Findings.SideRoutingAgrees | orderbook_backend/OrderBook.cpp:117-156 | with one decoding of the side, any code's order is cancelled from where it was put |
| Findings.MalformedRootTerminates | orderbook_backend/tcp_server.cpp:26 | an array request, or an object action, raises an exception no handler catches |
| Findings.RespondCorrectsAsWritten | orderbook_backend/tcp_server.cpp:16-47 | the corrected handler agrees wherever the code replies, and otherwise sends the error reply without touching the book |

## Left out

- Shared ownership: the engine holds orders through `shared_ptr`, so a caller's order object sees later fills. Here resting orders are values inside the levels, and only `AddOrder`'s repricing of a Market order reaches the caller's object.
- Integer widths in the book: prices and quantities are unbounded. The 32-bit overflow of sums and the `static_cast<int>` of sizes and trade counts are not modelled.
- Protocol.SizeReply: the size is reported as it is, without the truncation of `static_cast<int>`.
- BookSpec.Cancel: routes by the side recorded at insertion, so for an order sent with a side other than 0 or 1 it is the corrected cancellation, not the code as written. As written, `bids_.at(price)` then throws after the index entry is erased, or the erase runs on another level's list, which is undefined behaviour (`Findings.CancelAsWritten`, the OrderBook.cpp:117-156 row under "## Findings"). For a book built with sides 0 and 1 the level always exists, and `Findings.CancelAsWrittenAgrees` proves the two agree. The undefined case is modelled only as `Findings.Run.Undefined`, which carries the book as it was just before the erase. The `map::at` message is the text libstdc++ gives `std::out_of_range` from `std::map::at`; other standard libraries word it differently.
- `printOrderBook` and `print_orderbook` are console output only.
- Sockets, threads and the server's accept loop are not modelled. That includes `handleClient`'s single `recv` of at most 4096 bytes, the client's single 4096-byte `recv`, and the absence of a lock around the shared book. Requests are handled one at a time.
- main.cpp and test_system.py are not part of this model.
- The second `Order` constructor (a Market order without a price) builds a temporary and leaves the object uninitialised. Nothing in the core calls it.
- FillOrKill and GoodForDay are accepted and rest like GoodTillCancel, because the code gives them no handling of their own.
- JSON reals, and the text jsoncpp's `asString` gives for them, are not modelled: the `Json` value has integers only. The jsoncpp messages are those of jsoncpp 1.9. jsoncpp's parser is not part of this model, so text that does not parse is the `None` request.
- Gateway input validation by pydantic (422 responses) and response-model validation are not modelled; route inputs are already typed.
- The root route `/`, and the startup and shutdown hooks that connect and disconnect the shared client, are left out. Whether the client holds a socket is a parameter.
- Client.OrderBookClient.Connect: the outcome of the connection attempt is a parameter, and the OS error text of a failed exchange is carried as a plain message.
- OrderBooks.OrderBook: the level queues are sequences, and the front queues are copied while matching, where the engine mutates its lists in place.
- The getters of Order.h and OrderModify.h are the fields of the model.

## Findings

| source | as written | input that shows it | evidently intended | confidence | as-written member | corrected member |
|---|---|---|---|---|---|---|
| orderbook_backend/OrderBook.cpp:158-166 | the resting order's type is read through a reference into the index entry that `CancelOrder` has just erased | modify any resting order, e.g. a GoodForDay bid with id 1 | read the type before cancelling, so the replacement keeps it | not executed | Findings.ModifyTypeReadAfterCancel | BookLaws.ModifyKeepsType |
| orderbook_backend/OrderBook.cpp:117-156 | `AddOrder` puts every side other than Buy on the asks, while `CancelOrder` looks on the bids for every side other than Sell; the engine casts any integer to a side | (1) add_order {orderId 1, side 2, price 100, quantity 10, orderType 0} to an empty book, then cancel_order 1: the reply is the `map::at` error, and order 1 keeps resting on the asks with no index entry. (2) with bid {orderId 1, side 0, price 100, quantity 5, orderType 0} resting, add_order {orderId 2, side 2, price 100, quantity 10, orderType 1}: 5 trade, then the FillAndKill clean-up's cancellation of order 2 throws, so the reply is an error although the book changed. With a bid level at the order's price, the cancellation erases an iterator of another list instead | route both operations by the same test | not executed | Findings.FillAndKillSideTwo | Findings.SideRoutingAgrees |
| orderbook_backend/tcp_server.cpp:26 | the action is read before the try block, so its exception escapes the handler | the request `[]`, or `{"action": {}}` | answer with the catch clause's error reply | not executed | Findings.MalformedRootTerminates | Findings.RespondCorrectsAsWritten |

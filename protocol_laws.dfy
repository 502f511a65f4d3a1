/** What the engine's protocol promises: which requests change the book, which replies
    carry a success flag, and what the replies to each action report. */
module ProtocolLaws {
  import opened Types
  import opened Orders
  import opened BookSpec
  import opened JsonValues
  import opened Protocol
  import BookProps
  import MatchProps
  import BookLaws
  import CancelProps

  const Actions := {"add_order", "cancel_order", "get_size", "get_orderbook"}

  /** Every request keeps a valid book valid. */
  lemma RespondKeepsValid(b: Book, request: Option<Json>)
    ensures Valid(b) ==> Valid(Respond(b, request).0)
  {
    if Valid(b) && request.Some? && ActionOf(request.value).Ok? {
      var root, action := request.value, ActionOf(request.value).value;
      var data := Member(root, "data");
      if action == "add_order" && DecodeOrder(data).Ok? {
        BookLaws.AddValid(b, DecodeOrder(data).value);
      } else if action == "cancel_order" && DecodeCancel(data).Ok? {
        MatchProps.CancelValid(b, DecodeCancel(data).value);
      }
    }
  }

  /** Only add_order and cancel_order can change the book; unparsable text, an unreadable
      or unknown action, get_size and get_orderbook leave it untouched. */
  lemma OnlyAddAndCancelChangeTheBook(b: Book, request: Option<Json>)
    ensures Respond(b, request).0 != b ==>
      request.Some? && ActionOf(request.value) in {Ok("add_order"), Ok("cancel_order")}
  {
    if request.Some? && ActionOf(request.value).Ok? {
      var action := ActionOf(request.value).value;
      assert action != "add_order" && action != "cancel_order" ==> Respond(b, request).0 == b;
    }
  }

  /** Every reply is an object, and it lacks the success flag exactly when the text did
      not parse or the action is none of the four known ones; the unknown-action reply
      names the action. */
  lemma SuccessFlagIff(b: Book, request: Option<Json>)
    ensures Respond(b, request).1.JObject?
    ensures "success" !in Respond(b, request).1.members <==>
      || request.None?
      || (ActionOf(request.value).Ok? && ActionOf(request.value).value !in Actions)
    ensures request.Some? && ActionOf(request.value).Ok? && ActionOf(request.value).value !in Actions ==>
      Respond(b, request) == (b, JObject(map["error" := JString(UnknownAction + ActionOf(request.value).value)]))
  {
    if request.Some? && ActionOf(request.value).Ok? {
      var root, action := request.value, ActionOf(request.value).value;
      var data := Member(root, "data");
      if action == "add_order" {
        match DecodeOrder(data)
        case Err(_) =>
        case Ok(o) =>
          if Add(b, o).result.Ok? {
            assert "success" in AddReply(Add(b, o).result.value).members;
          }
      }
    }
  }

  /** get_size reports the number of resting orders and changes nothing. */
  lemma SizeReplyCounts(b: Book, root: Json)
    requires Wellformed(b) && ActionOf(root) == Ok("get_size")
    ensures Respond(b, Some(root)) == (b, SizeReply(Count(b.bids) + Count(b.asks)))
  {
    BookProps.SizeCountsResting(b);
  }

  /** An integer member of a request's data, or 0 when the member is absent. */
  function FieldOrZero(data: Json, key: string): int
  {
    if data.JObject? && key in data.members && data.members[key].JInt? then data.members[key].i else 0
  }

  /** The member is absent or an integer. */
  predicate IntOrAbsent(data: Json, key: string)
  {
    !(data.JObject? && key in data.members) || data.members[key].JInt?
  }

  /** add_order's data: each of the five fields that is absent reads as 0, and fields
      that are integers in range are taken as they are. */
  lemma DecodeDefaults(data: Json)
    requires data.JNull? || data.JObject?
    requires IntOrAbsent(data, "orderType") && IsInt32(FieldOrZero(data, "orderType"))
    requires IntOrAbsent(data, "orderId") && IsUInt64(FieldOrZero(data, "orderId"))
    requires IntOrAbsent(data, "side") && IsInt32(FieldOrZero(data, "side"))
    requires IntOrAbsent(data, "price") && IsInt32(FieldOrZero(data, "price"))
    requires IntOrAbsent(data, "quantity") && IsInt32(FieldOrZero(data, "quantity"))
    ensures DecodeOrder(data) == Ok(NewOrder(
      OrderTypeFromCode(FieldOrZero(data, "orderType")),
      FieldOrZero(data, "orderId"),
      EngineSide(FieldOrZero(data, "side")),
      FieldOrZero(data, "price"),
      FieldOrZero(data, "quantity")))
  {
    var typeCode, orderId := FieldOrZero(data, "orderType"), FieldOrZero(data, "orderId");
    var sideCode, price, quantity := FieldOrZero(data, "side"), FieldOrZero(data, "price"), FieldOrZero(data, "quantity");
    assert AsInt(GetFrom(data, "orderType", JInt(0))) == Ok(typeCode) by { FieldRead(data, "orderType"); }
    assert AsUInt64(GetFrom(data, "orderId", JInt(0))) == Ok(orderId) by { FieldRead(data, "orderId"); }
    assert AsInt(GetFrom(data, "side", JInt(0))) == Ok(sideCode) by { FieldRead(data, "side"); }
    assert AsInt(GetFrom(data, "price", JInt(0))) == Ok(price) by { FieldRead(data, "price"); }
    assert AsInt(GetFrom(data, "quantity", JInt(0))) == Ok(quantity) by { FieldRead(data, "quantity"); }
  }

  /** Empty data (null or {}) is a GoodTillCancel buy order with id, price and quantity 0. */
  lemma EmptyDataDefaults(data: Json)
    requires data == JNull || data == JObject(map[])
    ensures DecodeOrder(data) == Ok(NewOrder(GoodTillCancel, 0, Buy, 0, 0))
  {
    FieldRead(data, "orderType");
    FieldRead(data, "orderId");
    FieldRead(data, "side");
    FieldRead(data, "price");
    FieldRead(data, "quantity");
    DecodeDefaults(data);
  }

  lemma FieldRead(data: Json, key: string)
    requires (data.JNull? || data.JObject?) && IntOrAbsent(data, key)
    ensures GetFrom(data, key, JInt(0)) == JInt(FieldOrZero(data, key))
    ensures data == JNull || data == JObject(map[]) ==> FieldOrZero(data, key) == 0
  {
  }

  /** add_order: the book becomes the book after AddOrder; an accepted order is reported
      with its trades, an order the book threw on with the exception's message. */
  lemma AddReplyReports(b: Book, root: Json, o: OrderView)
    requires ActionOf(root) == Ok("add_order") && DecodeOrder(Member(root, "data")) == Ok(o)
    ensures var out := Add(b, o);
      Respond(b, Some(root)) ==
        (out.book, if out.result.Ok? then AddReply(out.result.value) else ErrorReply(out.result.message))
  {
  }

  /** The reply to crossing trades reports each one with the bid's price, at or above
      the ask's, and the common quantity. */
  lemma CrossingReply(trades: seq<Trade>)
    requires MatchProps.TradesCross(trades)
    ensures var reply := AddReply(trades).members;
      && reply["success"] == JBool(true)
      && reply["trades"].JArray? && reply["trades_count"] == JInt(|reply["trades"].items|)
      && |reply["trades"].items| == |trades|
      && forall i :: 0 <= i < |trades| ==>
           var t := reply["trades"].items[i].members;
           && t["bid_order_id"] == JInt(trades[i].bidTrade.orderId)
           && t["ask_order_id"] == JInt(trades[i].askTrade.orderId)
           && t["price"] == JInt(trades[i].bidTrade.price)
           && t["price"].i >= trades[i].askTrade.price
           && t["quantity"] == JInt(trades[i].askTrade.quantity)
  {
  }

  /** The trades as reported: the count equals the number of reported trades, which are
      the trades in order, and on a valid book each reported price (the bid's) is at or
      above the ask's price and each quantity is what both sides traded. */
  lemma ReportedTrades(b: Book, o: OrderView)
    requires Valid(b) && Add(b, o).result.Ok?
    ensures var trades := Add(b, o).result.value;
      var reply := AddReply(trades).members;
      && reply["success"] == JBool(true)
      && reply["trades"].JArray? && reply["trades_count"] == JInt(|reply["trades"].items|)
      && |reply["trades"].items| == |trades|
      && forall i :: 0 <= i < |trades| ==>
           var t := reply["trades"].items[i].members;
           && t["bid_order_id"] == JInt(trades[i].bidTrade.orderId)
           && t["ask_order_id"] == JInt(trades[i].askTrade.orderId)
           && t["price"] == JInt(trades[i].bidTrade.price)
           && t["price"].i >= trades[i].askTrade.price
           && t["quantity"] == JInt(trades[i].askTrade.quantity)
  {
    BookLaws.AddValid(b, o);
    CrossingReply(Add(b, o).result.value);
  }

  /** A duplicate id, or a FillAndKill order with nothing to trade against, is answered
      as a success with no trades, and the book is unchanged. */
  lemma RejectedAddReportsNoTrades(b: Book, root: Json, o: OrderView)
    requires Valid(b)
    requires ActionOf(root) == Ok("add_order") && DecodeOrder(Member(root, "data")) == Ok(o)
    requires || o.orderId in b.index
             || (&& o.orderType == FillAndKill
                 && (o.side == Buy ==> forall i :: 0 <= i < |b.asks| ==> b.asks[i].price > o.price)
                 && (o.side == Sell ==> forall i :: 0 <= i < |b.bids| ==> b.bids[i].price < o.price))
    ensures Respond(b, Some(root)) == (b, AddReply([]))
    ensures AddReply([]).members["trades_count"] == JInt(0)
  {
    BookLaws.AddRejects(b, o);
    AddReplyReports(b, root, o);
  }

  /** add_order fails (success false, the book unchanged) exactly for a new Market order
      whose opposite side is empty, and the error is the book's message. */
  lemma FailedAddReportsError(b: Book, root: Json, o: OrderView)
    requires ActionOf(root) == Ok("add_order") && DecodeOrder(Member(root, "data")) == Ok(o)
    ensures var reply := Respond(b, Some(root)).1;
      && reply.JObject? && "success" in reply.members
      && (reply.members["success"] == JBool(false) <==>
           o.orderId !in b.index && o.orderType == Market &&
           (if o.side == Buy then b.asks == [] else b.bids == []))
      && (reply.members["success"] == JBool(false) ==>
           && Respond(b, Some(root)).0 == b
           && reply == ErrorReply(if o.side == Buy then MarketBuyNoAsks else MarketSellNoBids))
  {
    var out := Add(b, o);
    assert Respond(b, Some(root)) ==
      (out.book, if out.result.Ok? then AddReply(out.result.value) else ErrorReply(out.result.message));
    if out.result.Ok? {
      assert AddReply(out.result.value).members["success"] == JBool(true);
      if o.orderId !in b.index && o.orderType == Market {
        assert Placed(b, o).Ok?;
      }
    } else {
      assert o.orderId !in b.index && !(o.orderType == FillAndKill && !CanMatch(b, o.side, o.price));
      assert Placed(b, o).Err?;
    }
  }

  /** Data that is neither an object nor null makes add_order and cancel_order fail with
      jsoncpp's message, and the book is unchanged. */
  lemma MalformedDataReportsError(b: Book, root: Json)
    requires ActionOf(root) == Ok("add_order") || ActionOf(root) == Ok("cancel_order")
    requires !(Member(root, "data").JNull? || Member(root, "data").JObject?)
    ensures Respond(b, Some(root)) == (b, ErrorReply(FindNeedsObject))
  {
  }

  /** cancel_order always reports success, whether or not the id was resting; an unknown
      id leaves the book as it was, and a known one leaves the index. */
  lemma CancelAlwaysSucceeds(b: Book, root: Json)
    requires ActionOf(root) == Ok("cancel_order") && DecodeCancel(Member(root, "data")).Ok?
    ensures Respond(b, Some(root)).1 == CancelReply
    ensures var id := DecodeCancel(Member(root, "data")).value;
      && (id !in b.index ==> Respond(b, Some(root)).0 == b)
      && (Wellformed(b) ==> Respond(b, Some(root)).0.index == b.index - {id})
  {
    var id := DecodeCancel(Member(root, "data")).value;
    if Wellformed(b) {
      CancelProps.CancelWellformed(b, id);
    }
  }

  /** The price member of a reported level (0 when absent). */
  function PriceOf(level: Json): int
  {
    if level.JObject? && "price" in level.members && level.members["price"].JInt? then level.members["price"].i else 0
  }

  /** get_orderbook on a valid book: bids from the highest price down, asks from the
      lowest up, one entry per level with its total remaining quantity; the book is
      unchanged. */
  lemma SnapshotOrdered(b: Book, root: Json)
    requires Valid(b) && ActionOf(root) == Ok("get_orderbook")
    ensures Respond(b, Some(root)).0 == b
    ensures var reply := Respond(b, Some(root)).1.members;
      var bids, asks := reply["bids"].items, reply["asks"].items;
      && reply["success"] == JBool(true)
      && |bids| == |b.bids| && |asks| == |b.asks|
      && (forall i :: 0 <= i < |bids| ==>
            bids[i] == JObject(map["price" := JInt(b.bids[i].price), "quantity" := JInt(Remaining(b.bids[i].orders))]))
      && (forall i :: 0 <= i < |asks| ==>
            asks[i] == JObject(map["price" := JInt(b.asks[i].price), "quantity" := JInt(Remaining(b.asks[i].orders))]))
      && (forall i, j :: 0 <= i < j < |bids| ==> PriceOf(bids[i]) > PriceOf(bids[j]))
      && (forall i, j :: 0 <= i < j < |asks| ==> PriceOf(asks[i]) < PriceOf(asks[j]))
  {
    var reply := Respond(b, Some(root)).1;
    assert reply == SnapshotReply(OrderBookLevelInfos(Summaries(b.bids), Summaries(b.asks)));
    SideJson(b.bids);
    SideJson(b.asks);
    BookLaws.InfosOrdered(b);
  }

  /** One side of the snapshot: an entry per level, in the side's order, carrying the
      level's price and total remaining quantity. */
  lemma SideJson(levels: seq<Level>)
    ensures var entries := LevelsJson(Summaries(levels));
      && |entries| == |levels|
      && forall i :: 0 <= i < |entries| ==>
           && entries[i] == JObject(map["price" := JInt(levels[i].price), "quantity" := JInt(Remaining(levels[i].orders))])
           && PriceOf(entries[i]) == levels[i].price
  {
  }
}

/** Places where the engine's code does something other than what it evidently means:
    each as written, with the input that shows it, next to the corrected behaviour the
    rest of the model uses. */
module Findings {
  import opened Types
  import opened Orders
  import opened BookSpec
  import opened JsonValues
  import opened Protocol
  import BookProps
  import CancelProps
  import InsertProps
  import MatchProps

  // ---------------------------------------------------------------------------
  // MatchOrder reads the resting order's type through a reference into the index entry
  // that CancelOrder has just erased.

  /** MatchOrder as written: an unknown id changes nothing; otherwise the type is read
      through a reference into the index entry after the cancellation erased it, which is
      undefined behaviour, reached with the cancelled book. */
  function ModifyAsWritten(b: Book, m: OrderModify): Run {
    if m.orderId !in b.index then Completed(b, [])
    else Undefined(Cancel(b, m.orderId))
  }

  /** The entry the as-written read uses exists before the cancellation and not after it,
      so the replacement never gets the resting order's type from it. */
  lemma ModifyTypeReadAfterCancel(b: Book, m: OrderModify)
    requires Wellformed(b) && m.orderId in b.index
    ensures Lookup(b, m.orderId).Some?
    ensures Lookup(Cancel(b, m.orderId), m.orderId) == None
    ensures ModifyAsWritten(b, m).Undefined?
  {
    CancelProps.LookupResting(b, m.orderId);
  }

  // ---------------------------------------------------------------------------
  // AddOrder and CancelOrder route a side that is neither Buy nor Sell differently.
  // The engine keeps the integer it was sent as the order's side; AddOrder files every
  // side other than Buy on the asks, and CancelOrder looks for every side other than Sell
  // on the bids, after it has already erased the index entry.

  /** AddOrder as written: the bids when the side equals Buy, the asks otherwise. */
  predicate AddRoutesToAsks(sideCode: int) {
    sideCode != Buy.Code()
  }

  /** CancelOrder as written: the asks when the side equals Sell, the bids otherwise. */
  predicate CancelRoutesToAsks(sideCode: int) {
    sideCode == Sell.Code()
  }

  /** The `what()` of the `std::out_of_range` that `std::map::at` throws (libstdc++). */
  const MapAtMessage := "map::at"

  /** How an engine operation run as written ends: normally, with an exception that leaves
      the book as it was when thrown, or by erasing a list iterator through a list it
      does not belong to, which is undefined behaviour. */
  datatype Run = Completed(book: Book, trades: seq<Trade>) | Threw(book: Book, message: string) | Undefined(book: Book)

  /** CancelOrder as written, for an order whose stored side is `storedSide`: the index
      entry goes first, then the level is looked up on the side the stored value names. */
  function CancelAsWritten(b: Book, id: OrderId, storedSide: int): Run {
    if id !in b.index then Completed(b, [])
    else
      var price := b.index[id].price;
      var erased := Book(b.bids, b.asks, b.index - {id});
      if CancelRoutesToAsks(storedSide) then
        var k := FindLevel(b.asks, price);
        if k == |b.asks| then Threw(erased, MapAtMessage)
        else if id !in OrderIds(b.asks[k].orders) then Undefined(erased)
        else Completed(Book(b.bids, RemoveOrderAt(b.asks, k, id), erased.index), [])
      else
        var k := FindLevel(b.bids, price);
        if k == |b.bids| then Threw(erased, MapAtMessage)
        else if id !in OrderIds(b.bids[k].orders) then Undefined(erased)
        else Completed(Book(RemoveOrderAt(b.bids, k, id), b.asks, erased.index), [])
  }

  /** The side value the engine stored for a resting order: the code of its side, except
      for the incoming order, which keeps the integer it was sent with (for 0 and 1 the
      two are the same). */
  function StoredSide(o: OrderView, incoming: OrderId, sideCode: int): (r: int)
    ensures (sideCode == 0 || sideCode == 1) ==> r == o.side.Code()
  {
    if o.orderId == incoming && o.side == EngineSide(sideCode) then sideCode else o.side.Code()
  }

  /** The FillAndKill clean-up at the end of MatchOrders, as written: the bid front
      first, then, when that completed, the ask front. */
  function KillFrontsAsWritten(b: Book, incoming: OrderId, sideCode: int): Run {
    var first := KillFrontAsWritten(b, Buy, incoming, sideCode);
    if first.Completed? then KillFrontAsWritten(first.book, Sell, incoming, sideCode) else first
  }

  /** One half of the clean-up: cancel the front order of `side`'s best level when it is
      FillAndKill. */
  function KillFrontAsWritten(b: Book, side: Side, incoming: OrderId, sideCode: int): Run {
    var levels := if side == Buy then b.bids else b.asks;
    if levels != [] && levels[0].orders != [] && levels[0].orders[0].orderType == FillAndKill
    then
      var front := levels[0].orders[0];
      CancelAsWritten(b, front.orderId, StoredSide(front, incoming, sideCode))
    else Completed(b, [])
  }

  /** AddOrder as written, for an order sent with side `sideCode`: AddOrder's own tests
      see the side as EngineSide(sideCode); the clean-up cancels with the stored value. */
  function AddAsWritten(b: Book, order: OrderView, sideCode: int): Run {
    var o := order.(side := EngineSide(sideCode));
    if o.orderId in b.index then Completed(b, [])
    else if o.orderType == FillAndKill && !CanMatch(b, o.side, o.price) then Completed(b, [])
    else
      match Placed(b, o)
      case Err(message) => Threw(b, message)
      case Ok(placed) =>
        var m := MatchLoop(Insert(b, placed), []);
        match KillFrontsAsWritten(m.0, o.orderId, sideCode)
        case Completed(b', _) => Completed(b', m.1)
        case Threw(b', message) => Threw(b', message)
        case Undefined(b') => Undefined(b')
  }

  /** handleCancelOrder's reply as written: the catch clause's error reply when
      CancelOrder threw, and none when it had undefined behaviour. */
  function CancelReplyAsWritten(r: Run): Option<Json> {
    match r
    case Completed(_, _) => Some(CancelReply)
    case Threw(_, message) => Some(ErrorReply(message))
    case Undefined(_) => None
  }

  /** Where a resting order is, on a wellformed book: on the side its index entry names,
      and on no level of the other side. */
  lemma RestingSide(b: Book, id: OrderId)
    requires Wellformed(b) && id in b.index
    ensures id in Ids(if b.index[id].side == Buy then b.bids else b.asks)
    ensures forall k :: 0 <= k < |b.bids| && b.index[id].side == Sell ==> id !in OrderIds(b.bids[k].orders)
    ensures forall k :: 0 <= k < |b.asks| && b.index[id].side == Buy ==> id !in OrderIds(b.asks[k].orders)
  {
    assert id in multiset(b.index.Keys);
    if id in Ids(b.bids) {
      var _ := CancelProps.LocateResting(b.bids, Buy, b.index, id);
    } else {
      var _ := CancelProps.LocateResting(b.asks, Sell, b.index, id);
    }
    forall k | 0 <= k < |b.bids| && b.index[id].side == Sell
      ensures id !in OrderIds(b.bids[k].orders)
    {
      if id in OrderIds(b.bids[k].orders) {
        var o := BookProps.OrderIdsWitness(b.bids[k].orders, id);
        BookProps.InIds(b.bids, b.bids[k], o);
        var _ := CancelProps.LocateResting(b.bids, Buy, b.index, id);
      }
    }
    forall k | 0 <= k < |b.asks| && b.index[id].side == Buy
      ensures id !in OrderIds(b.asks[k].orders)
    {
      if id in OrderIds(b.asks[k].orders) {
        var o := BookProps.OrderIdsWitness(b.asks[k].orders, id);
        BookProps.InIds(b.asks, b.asks[k], o);
        var _ := CancelProps.LocateResting(b.asks, Sell, b.index, id);
      }
    }
  }

  /** With the code of the side it rests on, CancelOrder as written is the corrected
      cancellation. */
  lemma CancelAsWrittenAgrees(b: Book, id: OrderId)
    requires Wellformed(b) && id in b.index
    ensures CancelAsWritten(b, id, b.index[id].side.Code()) == Completed(Cancel(b, id), [])
  {
    assert id in multiset(b.index.Keys);
    var index := b.index - {id};
    if id in Ids(b.bids) {
      var k := CancelProps.LocateResting(b.bids, Buy, b.index, id);
      assert Cancel(b, id) == Book(RemoveOrderAt(b.bids, k, id), b.asks, index);
      assert CancelAsWritten(b, id, 0) == Completed(Book(RemoveOrderAt(b.bids, k, id), b.asks, index), []);
    } else {
      var k := CancelProps.LocateResting(b.asks, Sell, b.index, id);
      assert Cancel(b, id) == Book(b.bids, RemoveOrderAt(b.asks, k, id), index);
      assert CancelAsWritten(b, id, 1) == Completed(Book(b.bids, RemoveOrderAt(b.asks, k, id), index), []);
    }
  }

  /** An order sent with side 2 rests on the asks, and cancelling it as written never
      completes: the index entry is gone while the order stays on the asks, and the
      cancellation throws when no bid level has its price and is undefined otherwise. */
  lemma CancelStrandsSideTwo(b: Book, id: OrderId)
    requires Wellformed(b) && id in b.index && b.index[id].side == Sell
    ensures var r := CancelAsWritten(b, id, 2);
      && r.book == Book(b.bids, b.asks, b.index - {id})
      && id !in r.book.index && id in Ids(r.book.asks)
      && (r.Threw? <==> FindLevel(b.bids, b.index[id].price) == |b.bids|)
      && (r.Threw? ==> r.message == MapAtMessage)
      && (r.Undefined? <==> FindLevel(b.bids, b.index[id].price) < |b.bids|)
  {
    RestingSide(b, id);
  }

  /** With codes 0 and 1, AddOrder as written is the corrected Add. */
  lemma AddAsWrittenAgrees(b: Book, o: OrderView, sideCode: int)
    requires Wellformed(b) && (sideCode == 0 || sideCode == 1)
    ensures var out := Add(b, o.(side := EngineSide(sideCode)));
      AddAsWritten(b, o, sideCode) ==
        if out.result.Ok? then Completed(out.book, out.result.value) else Threw(out.book, out.result.message)
  {
    var o' := o.(side := EngineSide(sideCode));
    if o'.orderId !in b.index && !(o'.orderType == FillAndKill && !CanMatch(b, o'.side, o'.price)) {
      var p := Placed(b, o');
      if p.Ok? {
        InsertProps.InsertWellformed(b, p.value);
        MatchProps.MatchLoopOk(Insert(b, p.value), []);
        KillFrontsAgrees(MatchLoop(Insert(b, p.value), []).0, o'.orderId, sideCode);
      }
    }
  }

  /** With codes 0 and 1, the as-written clean-up is KillFronts. */
  lemma KillFrontsAgrees(b: Book, incoming: OrderId, sideCode: int)
    requires Wellformed(b) && (sideCode == 0 || sideCode == 1)
    ensures KillFrontsAsWritten(b, incoming, sideCode) == Completed(KillFronts(b), [])
  {
    KillFrontAgrees(b, Buy, incoming, sideCode);
    var b1 := KillFrontAsWritten(b, Buy, incoming, sideCode).book;
    KillFrontAgrees(b1, Sell, incoming, sideCode);
  }

  /** One half of the clean-up, with codes 0 and 1: the front order is cancelled exactly
      as KillFronts cancels it, and the book stays wellformed. */
  lemma KillFrontAgrees(b: Book, side: Side, incoming: OrderId, sideCode: int)
    requires Wellformed(b) && (sideCode == 0 || sideCode == 1)
    ensures var levels := if side == Buy then b.bids else b.asks;
      var kill := levels != [] && levels[0].orders != [] && levels[0].orders[0].orderType == FillAndKill;
      var r := if kill then Cancel(b, levels[0].orders[0].orderId) else b;
      KillFrontAsWritten(b, side, incoming, sideCode) == Completed(r, []) && Wellformed(r)
  {
    var levels := if side == Buy then b.bids else b.asks;
    if levels != [] && levels[0].orders != [] && levels[0].orders[0].orderType == FillAndKill {
      RestingCancelAgrees(b, levels[0], levels[0].orders[0], incoming, sideCode);
    }
  }

  /** With codes 0 and 1, cancelling any resting order as written is the corrected
      cancellation. */
  lemma RestingCancelAgrees(b: Book, l: Level, o: OrderView, incoming: OrderId, sideCode: int)
    requires Wellformed(b) && (sideCode == 0 || sideCode == 1)
    requires (l in b.bids || l in b.asks) && o in l.orders
    ensures CancelAsWritten(b, o.orderId, StoredSide(o, incoming, sideCode)) == Completed(Cancel(b, o.orderId), [])
    ensures Wellformed(Cancel(b, o.orderId))
  {
    BookProps.RestingIsIndexed(b, l, o);
    if l in b.bids {
      assert LevelOk(l, Buy, b.index);
    } else {
      assert LevelOk(l, Sell, b.index);
    }
    CancelAsWrittenAgrees(b, o.orderId);
    CancelProps.CancelWellformed(b, o.orderId);
  }

  /** The first input that shows it: a GoodTillCancel order sent with side 2 to an empty
      book rests on the asks. cancel_order then answers with the `map::at` error and
      leaves the order on the asks without an index entry, where the corrected
      cancellation empties the book. */
  lemma CancelAfterAddSideTwo(id: OrderId, price: Price, quantity: Quantity)
    ensures var o := NewOrder(GoodTillCancel, id, Sell, price, quantity);
      var placed := Book([], [Level(price, [o])], map[id := Locator(Sell, price)]);
      var r := CancelAsWritten(placed, id, 2);
      && AddAsWritten(EmptyBook, o, 2) == Completed(placed, [])
      && r == Threw(Book([], [Level(price, [o])], map[]), MapAtMessage)
      && CancelReplyAsWritten(r) == Some(ErrorReply(MapAtMessage))
      && Cancel(placed, id) == EmptyBook
  {
    var o := NewOrder(GoodTillCancel, id, Sell, price, quantity);
    var placed := Book([], [Level(price, [o])], map[id := Locator(Sell, price)]);
    assert Insert(EmptyBook, o) == placed;
    assert MatchLoop(placed, []) == (placed, []);
    assert placed.index - {id} == map[];
  }

  /** The second input that shows it: against a resting bid, a larger FillAndKill order
      at the same price sent with side 2 trades the bid's quantity, and the clean-up's
      cancellation of its rest throws. The reply is an error although the book changed;
      the corrected add succeeds with the one trade and leaves the book empty. */
  lemma FillAndKillSideTwo(bidId: OrderId, askId: OrderId, price: Price, bidQty: Quantity, askQty: Quantity)
    requires bidId != askId && 0 < bidQty < askQty
    ensures var bid := NewOrder(GoodTillCancel, bidId, Buy, price, bidQty);
      var b := Book([Level(price, [bid])], [], map[bidId := Locator(Buy, price)]);
      var o := NewOrder(FillAndKill, askId, Sell, price, askQty);
      var rest := o.(remainingQuantity := askQty - bidQty);
      && AddAsWritten(b, o, 2) == Threw(Book([], [Level(price, [rest])], map[]), MapAtMessage)
      && Add(b, o) == Outcome(EmptyBook, Ok([Trade(TradeInfo(bidId, price, bidQty), TradeInfo(askId, price, bidQty))]))
  {
    var bid := NewOrder(GoodTillCancel, bidId, Buy, price, bidQty);
    var b := Book([Level(price, [bid])], [], map[bidId := Locator(Buy, price)]);
    var o := NewOrder(FillAndKill, askId, Sell, price, askQty);
    var rest := o.(remainingQuantity := askQty - bidQty);
    var after := Book([], [Level(price, [rest])], map[askId := Locator(Sell, price)]);
    var trade := Trade(TradeInfo(bidId, price, bidQty), TradeInfo(askId, price, bidQty));
    assert o.(side := EngineSide(2)) == o;
    assert Placed(b, o) == Ok(o);
    MatchAgainstOneBid(bid, o, price);
    KillLoneAsk(rest, price);
  }

  /** The clean-up on a book holding only a FillAndKill ask sent with side 2: as written
      it throws with the index entry already gone; corrected it empties the book. */
  lemma KillLoneAsk(rest: OrderView, price: Price)
    requires rest.orderType == FillAndKill
    ensures var after := Book([], [Level(price, [rest])], map[rest.orderId := Locator(Sell, price)]);
      && KillFrontsAsWritten(after, rest.orderId, 2) == Threw(Book([], [Level(price, [rest])], map[]), MapAtMessage)
      && KillFronts(after) == EmptyBook
  {
    var after := Book([], [Level(price, [rest])], map[rest.orderId := Locator(Sell, price)]);
    assert after.index - {rest.orderId} == map[];
    assert RemoveOrderAt(after.asks, 0, rest.orderId) == [];
  }

  /** The matching of that second input: one trade for the bid's quantity, after which
      only the rest of the incoming order is left. */
  lemma MatchAgainstOneBid(bid: OrderView, o: OrderView, price: Price)
    requires bid.orderId != o.orderId && bid.price == o.price == price
    requires 0 < bid.remainingQuantity < o.remainingQuantity
    ensures var placed := Book([Level(price, [bid])], [Level(price, [o])],
        map[bid.orderId := Locator(Buy, price), o.orderId := Locator(Sell, price)]);
      var rest := o.(remainingQuantity := o.remainingQuantity - bid.remainingQuantity);
      var trade := Trade(TradeInfo(bid.orderId, price, bid.remainingQuantity), TradeInfo(o.orderId, price, bid.remainingQuantity));
      MatchLoop(placed, []) == (Book([], [Level(price, [rest])], map[o.orderId := Locator(Sell, price)]), [trade])
  {
    var index := map[bid.orderId := Locator(Buy, price), o.orderId := Locator(Sell, price)];
    var placed := Book([Level(price, [bid])], [Level(price, [o])], index);
    var q := bid.remainingQuantity;
    var rest := o.(remainingQuantity := o.remainingQuantity - q);
    var index' := map[o.orderId := Locator(Sell, price)];
    var trade := Trade(TradeInfo(bid.orderId, price, q), TradeInfo(o.orderId, price, q));
    assert index - {bid.orderId} == index';
    assert FillFront([bid], index, q) == ([], index');
    assert [o][0 := o.Fill(q)] == [rest];
    assert FillFront([o], index', q) == ([rest], index');
    var f := Fronts([], [rest], index', [trade]);
    assert TradeFronts(Fronts([bid], [o], index, [])) == f;
    assert MatchFronts(f) == f;
    var after := Book([], [Level(price, [rest])], index');
    assert Settle(placed.bids, []) == [] && Settle(placed.asks, [rest]) == [Level(price, [rest])];
    assert MatchLoop(after, [trade]) == (after, [trade]);
  }

  /** The corrected routing decodes the wire side once, with AddOrder's test, and the
      cancellation follows the side recorded at insertion: whatever the code, an order
      cancelled right after it was inserted leaves the book as it was. */
  lemma SideRoutingAgrees(b: Book, o: OrderView, sideCode: int)
    requires Wellformed(b) && o.orderId !in b.index && o.side == EngineSide(sideCode)
    ensures (o.side == Sell) == AddRoutesToAsks(sideCode)
    ensures Cancel(Insert(b, o), o.orderId) == b
  {
    InsertProps.InsertCancelRoundTrip(b, o);
  }

  // ---------------------------------------------------------------------------
  // processRequest reads the action before its try block.

  /** What the engine does with a request: sends a reply, or ends with an exception that
      nothing catches. */
  datatype Reply = Sent(body: Json) | Terminated(message: string)

  /** processRequest as written: an exception while reading the action escapes. */
  function ProcessRequestAsWritten(b: Book, request: Option<Json>): (Book, Reply) {
    match request
    case None => (b, Sent(InvalidJsonReply))
    case Some(root) =>
      match ActionOf(root)
      case Err(message) => (b, Terminated(message))
      case Ok(action) =>
        var (b', reply) := Dispatch(b, root, action);
        (b', Sent(reply))
  }

  /** A request that parses to an array, or whose action is an object, ends the engine. */
  lemma MalformedRootTerminates(b: Book)
    ensures ProcessRequestAsWritten(b, Some(JArray([]))) == (b, Terminated(FindNeedsObject))
    ensures ProcessRequestAsWritten(b, Some(JObject(map["action" := JObject(map[])]))) ==
      (b, Terminated(NotConvertibleToString))
  {
  }

  /** The corrected processRequest answers every request: it agrees with the code as
      written wherever that sends a reply, and turns each escaping exception into the
      catch clause's error reply, leaving the book alone. */
  lemma RespondCorrectsAsWritten(b: Book, request: Option<Json>)
    ensures ProcessRequestAsWritten(b, request).1.Sent? ==>
      Respond(b, request) == (ProcessRequestAsWritten(b, request).0, ProcessRequestAsWritten(b, request).1.body)
    ensures ProcessRequestAsWritten(b, request).1.Terminated? ==>
      ProcessRequestAsWritten(b, request).0 == b &&
      Respond(b, request) == (b, ErrorReply(ProcessRequestAsWritten(b, request).1.message))
  {
  }
}

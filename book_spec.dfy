/** The limit order book as a value, and the specification of every operation of
    OrderBook.cpp as a function on that value.

    A side of the book is a sequence of price levels kept strictly sorted best-first
    (bids by descending price, asks by ascending price), which is what the engine's
    `std::map` with `std::greater` / `std::less` iterates; each level is a FIFO sequence
    of resting orders. The id index maps an order id to the side and price of the level
    that holds it; since ids are unique, that determines the order's position. */
module BookSpec {
  import opened Types
  import opened Orders

  datatype Level = Level(price: Price, orders: seq<OrderView>)

  /** Where an indexed order rests. */
  datatype Locator = Locator(side: Side, price: Price)

  datatype Book = Book(bids: seq<Level>, asks: seq<Level>, index: map<OrderId, Locator>)

  const EmptyBook := Book([], [], map[])

  /** Price `p` has priority over price `q` on `side`. */
  predicate Before(side: Side, p: Price, q: Price) {
    if side == Buy then p > q else p < q
  }

  // ---------------------------------------------------------------------------
  // Measures and aggregates

  /** The number of resting orders in `levels`. */
  function Count(levels: seq<Level>): nat {
    if levels == [] then 0 else |levels[0].orders| + Count(levels[1..])
  }

  /** Orders plus levels: what every matching round consumes. */
  function Weight(levels: seq<Level>): nat {
    if levels == [] then 0 else 1 + |levels[0].orders| + Weight(levels[1..])
  }

  function OrderIds(orders: seq<OrderView>): multiset<OrderId> {
    if orders == [] then multiset{} else multiset{orders[0].orderId} + OrderIds(orders[1..])
  }

  /** The ids of all orders resting in `levels`, with multiplicity. */
  function Ids(levels: seq<Level>): multiset<OrderId> {
    if levels == [] then multiset{} else OrderIds(levels[0].orders) + Ids(levels[1..])
  }

  /** The sum of the remaining quantities of `orders`. */
  function Remaining(orders: seq<OrderView>): int {
    if orders == [] then 0 else orders[0].remainingQuantity + Remaining(orders[1..])
  }

  function TotalRemaining(levels: seq<Level>): int {
    if levels == [] then 0 else Remaining(levels[0].orders) + TotalRemaining(levels[1..])
  }

  /** The total quantity of `trades`. */
  function Volume(trades: seq<Trade>): int {
    if trades == [] then 0 else Volume(trades[..|trades| - 1]) + trades[|trades| - 1].bidTrade.quantity
  }

  // ---------------------------------------------------------------------------
  // Invariants

  ghost predicate Sorted(levels: seq<Level>, side: Side) {
    forall i, j :: 0 <= i < j < |levels| ==> Before(side, levels[i].price, levels[j].price)
  }

  /** A resting order sits on its own side at its own price, was never left as a Market
      order, and when indexed, is indexed at that level. */
  ghost predicate OrderOk(o: OrderView, side: Side, price: Price, index: map<OrderId, Locator>) {
    && o.side == side
    && o.price == price
    && o.orderType != Market
    && (o.orderId in index ==> index[o.orderId] == Locator(side, price))
  }

  ghost predicate LevelOk(level: Level, side: Side, index: map<OrderId, Locator>) {
    forall o :: o in level.orders ==> OrderOk(o, side, level.price, index)
  }

  ghost predicate LevelsOk(levels: seq<Level>, side: Side, index: map<OrderId, Locator>) {
    && Sorted(levels, side)
    && forall l :: l in levels ==> LevelOk(l, side, index)
  }

  ghost predicate NoEmptyLevel(levels: seq<Level>) {
    forall l :: l in levels ==> l.orders != []
  }

  /** The levels and the index agree: every resting id is indexed exactly once, every
      index entry belongs to exactly one resting order, and it names that order's level. */
  ghost predicate Consistent(b: Book) {
    && LevelsOk(b.bids, Buy, b.index)
    && LevelsOk(b.asks, Sell, b.index)
    && Ids(b.bids) + Ids(b.asks) == multiset(b.index.Keys)
  }

  ghost predicate Wellformed(b: Book) {
    Consistent(b) && NoEmptyLevel(b.bids) && NoEmptyLevel(b.asks)
  }

  /** No bid is at or above the lowest ask. */
  predicate Uncrossed(b: Book) {
    b.bids == [] || b.asks == [] || b.bids[0].price < b.asks[0].price
  }

  ghost predicate Valid(b: Book) {
    Wellformed(b) && Uncrossed(b)
  }

  // ---------------------------------------------------------------------------
  // Level lookup, insertion and removal

  /** The position of the level at `price`, or |levels| when there is none. */
  function FindLevel(levels: seq<Level>, price: Price): (k: nat)
    ensures k <= |levels|
    ensures k < |levels| ==> levels[k].price == price
    ensures forall i :: 0 <= i < k ==> levels[i].price != price
  {
    if levels == [] || levels[0].price == price then 0 else 1 + FindLevel(levels[1..], price)
  }

  /** The orders resting at `price`, oldest first. */
  function OrdersAt(levels: seq<Level>, price: Price): seq<OrderView> {
    var k := FindLevel(levels, price);
    if k < |levels| then levels[k].orders else []
  }

  /** Appends `o` to the back of the level at its price, creating that level in its
      sorted place when there is none. */
  function Append(levels: seq<Level>, side: Side, o: OrderView): (r: seq<Level>)
    ensures r != []
  {
    if levels == [] then [Level(o.price, [o])]
    else if levels[0].price == o.price then [Level(o.price, levels[0].orders + [o])] + levels[1..]
    else if Before(side, o.price, levels[0].price) then [Level(o.price, [o])] + levels
    else [levels[0]] + Append(levels[1..], side, o)
  }

  /** `orders` without its first order with id `id`. */
  function Without(orders: seq<OrderView>, id: OrderId): (r: seq<OrderView>)
    ensures |r| <= |orders|
    ensures forall o :: o in r ==> o in orders
  {
    if orders == [] then []
    else if orders[0].orderId == id then orders[1..]
    else [orders[0]] + Without(orders[1..], id)
  }

  /** Removes order `id` from level `k`, erasing the level when it becomes empty. */
  function RemoveOrderAt(levels: seq<Level>, k: nat, id: OrderId): seq<Level>
    requires k < |levels|
  {
    var rest := Without(levels[k].orders, id);
    if rest == [] then levels[..k] + levels[k + 1..]
    else levels[k := Level(levels[k].price, rest)]
  }

  /** The book with `o` appended to its level and entered in the index. */
  function Insert(b: Book, o: OrderView): Book {
    if o.side == Buy then
      Book(Append(b.bids, Buy, o), b.asks, b.index[o.orderId := Locator(Buy, o.price)])
    else
      Book(b.bids, Append(b.asks, Sell, o), b.index[o.orderId := Locator(Sell, o.price)])
  }

  /** CancelOrder, routed by the side recorded at insertion: unknown ids change nothing;
      otherwise the entry leaves the index and the order leaves its level. The engine
      routes by the order's stored side instead, which differs for a side sent as neither
      0 nor 1 (`Findings.CancelAsWritten`). */
  function Cancel(b: Book, id: OrderId): Book {
    if id !in b.index then b
    else
      var loc := b.index[id];
      var index := b.index - {id};
      if loc.side == Sell then
        var k := FindLevel(b.asks, loc.price);
        Book(b.bids, if k < |b.asks| then RemoveOrderAt(b.asks, k, id) else b.asks, index)
      else
        var k := FindLevel(b.bids, loc.price);
        Book(if k < |b.bids| then RemoveOrderAt(b.bids, k, id) else b.bids, b.asks, index)
  }

  function FindOrder(orders: seq<OrderView>, id: OrderId): (r: Option<OrderView>)
    ensures r.Some? ==> r.value in orders && r.value.orderId == id
    ensures r.None? ==> id !in OrderIds(orders)
  {
    if orders == [] then None
    else if orders[0].orderId == id then Some(orders[0])
    else FindOrder(orders[1..], id)
  }

  /** The resting order with id `id`, found through the index. */
  function Lookup(b: Book, id: OrderId): Option<OrderView> {
    if id !in b.index then None
    else
      var loc := b.index[id];
      var levels := if loc.side == Buy then b.bids else b.asks;
      var k := FindLevel(levels, loc.price);
      if k < |levels| then FindOrder(levels[k].orders, id) else None
  }

  // ---------------------------------------------------------------------------
  // Matching

  /** canMatch: an order on `side` at `price` would cross the opposite best level. */
  function CanMatch(b: Book, side: Side, price: Price): bool {
    if side == Buy then b.asks != [] && price >= b.asks[0].price
    else b.bids != [] && price <= b.bids[0].price
  }

  /** The state of the inner matching loop: the best bid level's orders, the best ask
      level's orders, the index and the trades so far. */
  datatype Fronts = Fronts(bids: seq<OrderView>, asks: seq<OrderView>, index: map<OrderId, Locator>, trades: seq<Trade>)

  /** The front order of a queue after `quantity` of it traded: popped and dropped from
      the index when filled, otherwise updated in place. */
  function FillFront(orders: seq<OrderView>, index: map<OrderId, Locator>, quantity: Quantity): (r: (seq<OrderView>, map<OrderId, Locator>))
    requires orders != [] && quantity <= orders[0].remainingQuantity
    ensures |r.0| == |orders| - (if quantity == orders[0].remainingQuantity then 1 else 0)
  {
    var filled := orders[0].Fill(quantity);
    if filled.IsFilled() then (orders[1..], index - {orders[0].orderId})
    else (orders[0 := filled], index)
  }

  /** One trade between the front bid and the front ask, for the smaller of their
      remaining quantities. */
  function TradeFronts(f: Fronts): (r: Fronts)
    requires f.bids != [] && f.asks != []
    ensures |r.bids| + |r.asks| < |f.bids| + |f.asks|
  {
    var bid := f.bids[0];
    var ask := f.asks[0];
    var quantity := Min(bid.remainingQuantity, ask.remainingQuantity);
    var (bids, index) := FillFront(f.bids, f.index, quantity);
    var (asks, index') := FillFront(f.asks, index, quantity);
    var trade := Trade(TradeInfo(bid.orderId, bid.price, quantity), TradeInfo(ask.orderId, ask.price, quantity));
    Fronts(bids, asks, index', f.trades + [trade])
  }

  /** The inner loop: trade while both front levels have orders. */
  function MatchFronts(f: Fronts): (r: Fronts)
    decreases |f.bids| + |f.asks|
    ensures r.bids == [] || r.asks == []
    ensures |r.bids| + |r.asks| <= |f.bids| + |f.asks|
  {
    if f.bids == [] || f.asks == [] then f else MatchFronts(TradeFronts(f))
  }

  /** The level list after its front level's orders became `orders`: an emptied level
      is erased. */
  function Settle(levels: seq<Level>, orders: seq<OrderView>): (r: seq<Level>)
    requires levels != []
    ensures Weight(r) + |levels[0].orders| + (if orders == [] then 1 else 0) == Weight(levels) + |orders|
  {
    if orders == [] then levels[1..]
    else
      assert levels[0 := Level(levels[0].price, orders)][1..] == levels[1..];
      levels[0 := Level(levels[0].price, orders)]
  }

  predicate Crossed(b: Book) {
    b.bids != [] && b.asks != [] && b.bids[0].price >= b.asks[0].price
  }

  /** The outer loop: while the best bid is at or above the best ask, run the inner loop
      on the two best levels and erase whichever became empty. */
  function MatchLoop(b: Book, trades: seq<Trade>): (Book, seq<Trade>)
    decreases Weight(b.bids) + Weight(b.asks)
  {
    if !Crossed(b) then (b, trades)
    else
      var f := MatchFronts(Fronts(b.bids[0].orders, b.asks[0].orders, b.index, trades));
      MatchLoop(Book(Settle(b.bids, f.bids), Settle(b.asks, f.asks), f.index), f.trades)
  }

  /** After matching, a FillAndKill order at the front of the best bid level, and then
      one at the front of the best ask level, is cancelled. */
  function KillFronts(b: Book): Book {
    var b1 :=
      if b.bids != [] && b.bids[0].orders != [] && b.bids[0].orders[0].orderType == FillAndKill
      then Cancel(b, b.bids[0].orders[0].orderId) else b;
    if b1.asks != [] && b1.asks[0].orders != [] && b1.asks[0].orders[0].orderType == FillAndKill
    then Cancel(b1, b1.asks[0].orders[0].orderId) else b1
  }

  /** MatchOrders: the book after matching and the trades, in matching order. */
  function MatchOrders(b: Book): (Book, seq<Trade>) {
    var m := MatchLoop(b, []);
    (KillFronts(m.0), m.1)
  }

  // ---------------------------------------------------------------------------
  // Adding, modifying

  const MarketBuyNoAsks := "Market Buy Order cannot be placed: No Ask orders available"
  const MarketSellNoBids := "Market Sell Order cannot be placed: No Bid orders available"

  /** The order as it will rest: a Market order becomes GoodTillCancel at the opposite
      side's best price, and fails when that side is empty. */
  function Placed(b: Book, o: OrderView): (r: Result<OrderView>)
    ensures o.orderType != Market ==> r == Ok(o)
    ensures o.orderType == Market ==>
      && (r.Err? <==> (if o.side == Buy then b.asks == [] else b.bids == []))
      && (r.Err? ==> r.message == if o.side == Buy then MarketBuyNoAsks else MarketSellNoBids)
      && (r.Ok? ==> r.value == o.AsGoodTillCancel(if o.side == Buy then b.asks[0].price else b.bids[0].price))
    ensures r.Ok? ==> r.value.orderType != Market
  {
    if o.orderType != Market then Ok(o)
    else if o.side == Buy then
      if b.asks == [] then Err(MarketBuyNoAsks) else Ok(o.AsGoodTillCancel(b.asks[0].price))
    else
      if b.bids == [] then Err(MarketSellNoBids) else Ok(o.AsGoodTillCancel(b.bids[0].price))
  }

  /** The book after an operation, and its trades or the message of its exception. */
  datatype Outcome = Outcome(book: Book, result: Result<seq<Trade>>)

  /** AddOrder. */
  function Add(b: Book, o: OrderView): Outcome {
    if o.orderId in b.index then Outcome(b, Ok([]))
    else if o.orderType == FillAndKill && !CanMatch(b, o.side, o.price) then Outcome(b, Ok([]))
    else
      match Placed(b, o)
      case Err(message) => Outcome(b, Err(message))
      case Ok(placed) =>
        var m := MatchOrders(Insert(b, placed));
        Outcome(m.0, Ok(m.1))
  }

  /** The type of the resting order `id` (GoodTillCancel when there is none, which a
      wellformed book rules out for indexed ids). */
  function ResidentType(b: Book, id: OrderId): OrderType {
    match Lookup(b, id)
    case Some(o) => o.orderType
    case None => GoodTillCancel
  }

  /** MatchOrder: replace a resting order, keeping its type; unknown ids change nothing.
      The type is read before the cancellation (see `Findings.ModifyTypeReadAfterCancel`). */
  function Modify(b: Book, m: OrderModify): Outcome {
    if m.orderId !in b.index then Outcome(b, Ok([]))
    else Add(Cancel(b, m.orderId), m.ToOrder(ResidentType(b, m.orderId)))
  }

  // ---------------------------------------------------------------------------
  // Aggregation

  /** getOrderInfos' per-level summary: price and total remaining quantity. */
  function Summaries(levels: seq<Level>): (r: seq<LevelInfo>)
    ensures |r| == |levels|
    ensures forall i :: 0 <= i < |levels| ==> r[i] == LevelInfo(levels[i].price, Remaining(levels[i].orders))
  {
    if levels == [] then []
    else [LevelInfo(levels[0].price, Remaining(levels[0].orders))] + Summaries(levels[1..])
  }
}

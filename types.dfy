/** Scalar types, enumerations and small result types shared by the order book engine,
    its wire protocol and the Python gateway. */
module Types {

  /** Price and Quantity are 32-bit signed integers, OrderId a 64-bit unsigned integer
      in the engine. The book itself computes with mathematical integers; the ranges are
      enforced where the engine decodes a request. */
  type Price = int
  type Quantity = int
  type OrderId = nat

  predicate IsInt32(x: int) { -0x8000_0000 <= x < 0x8000_0000 }
  predicate IsUInt64(x: int) { 0 <= x < 0x1_0000_0000_0000_0000 }

  datatype Side = Buy | Sell {
    /** The wire value of the side: 0 = Buy, 1 = Sell. */
    function Code(): int { if Buy? then 0 else 1 }
  }

  /** The order types. `Unlisted` stands for an integer outside 0..4 that the engine's
      static_cast lets through; the engine gives it no special handling. */
  datatype OrderType =
    | GoodTillCancel | FillAndKill | FillOrKill | Market | GoodForDay
    | Unlisted(code: int)
  {
    /** True for the five values the enumeration names. */
    predicate IsNamed() { !Unlisted? }

    /** The wire value of the type: 0 = GoodTillCancel ... 4 = GoodForDay. */
    function Code(): int {
      match this
      case GoodTillCancel => 0
      case FillAndKill => 1
      case FillOrKill => 2
      case Market => 3
      case GoodForDay => 4
      case Unlisted(c) => c
    }
  }

  /** The order type the engine obtains from a wire integer by static_cast. */
  function OrderTypeFromCode(code: int): (t: OrderType)
    ensures t.IsNamed() <==> 0 <= code <= 4
    ensures t.Code() == code
  {
    if code == 0 then GoodTillCancel
    else if code == 1 then FillAndKill
    else if code == 2 then FillOrKill
    else if code == 3 then Market
    else if code == 4 then GoodForDay
    else Unlisted(code)
  }

  /** Every order type whose code the cast can produce decodes back to itself. */
  lemma OrderTypeCodeRoundTrip(t: OrderType)
    requires t.Unlisted? ==> !(0 <= t.code <= 4)
    ensures OrderTypeFromCode(t.Code()) == t
  {
  }

  /** The side the engine obtains from a wire integer. The engine routes an order to the
      bids exactly when its side equals Buy (0) and to the asks otherwise, so every other
      code is decoded as Sell (see `Findings.SideRoutingAgrees`). */
  function EngineSide(code: int): (s: Side)
    ensures s == Buy <==> code == 0
    ensures code == 0 || code == 1 ==> s.Code() == code
  {
    if code == 0 then Buy else Sell
  }

  /** A value or the message of the exception that replaced it. */
  datatype Result<+T> = Ok(value: T) | Err(message: string) {
    predicate IsFailure() { Err? }
    function PropagateFailure<U>(): Result<U> requires Err? { Err(message) }
    function Extract(): T requires Ok? { value }
  }

  datatype Option<+T> = None | Some(value: T)

  /** One side of a trade: the order, the price it traded at and the quantity. */
  datatype TradeInfo = TradeInfo(orderId: OrderId, price: Price, quantity: Quantity)

  /** A trade: the bid side first, then the ask side. */
  datatype Trade = Trade(bidTrade: TradeInfo, askTrade: TradeInfo)

  /** The aggregated quantity resting at one price. */
  datatype LevelInfo = LevelInfo(price: Price, quantity: Quantity)

  /** Aggregated bid levels (best first) and ask levels (best first). */
  datatype OrderBookLevelInfos = OrderBookLevelInfos(bids: seq<LevelInfo>, asks: seq<LevelInfo>)

  function Min(a: int, b: int): (m: int)
    ensures m <= a && m <= b
    ensures m == a || m == b
  {
    if a < b then a else b
  }
}

/** An order (Order.h) and an order-modification request (OrderModify.h). */
module Orders {
  import opened Types

  /** The value of an order at one moment: what the engine's Order object holds. */
  datatype OrderView = OrderView(
    orderType: OrderType,
    orderId: OrderId,
    side: Side,
    price: Price,
    initialQuantity: Quantity,
    remainingQuantity: Quantity)
  {
    function FilledQuantity(): Quantity { initialQuantity - remainingQuantity }

    predicate IsFilled() { remainingQuantity == 0 }

    /** The order after `quantity` more of it has traded. */
    function Fill(quantity: Quantity): (r: OrderView)
      requires quantity <= remainingQuantity
      ensures r.FilledQuantity() == FilledQuantity() + quantity
      ensures r.IsFilled() <==> quantity == remainingQuantity
      ensures r.(remainingQuantity := remainingQuantity) == this
    {
      this.(remainingQuantity := remainingQuantity - quantity)
    }

    /** The order re-typed as GoodTillCancel at `newPrice`. */
    function AsGoodTillCancel(newPrice: Price): (r: OrderView)
      ensures r.orderType == GoodTillCancel && r.price == newPrice
      ensures r.(orderType := orderType, price := price) == this
    {
      this.(orderType := GoodTillCancel, price := newPrice)
    }
  }

  /** A new, unfilled order. */
  function NewOrder(orderType: OrderType, orderId: OrderId, side: Side, price: Price, quantity: Quantity): (o: OrderView)
    ensures o.remainingQuantity == o.initialQuantity == quantity
    ensures o.FilledQuantity() == 0
  {
    OrderView(orderType, orderId, side, price, quantity, quantity)
  }

  /** The outcome of a void operation that may throw. */
  datatype Status = Done | Failed(message: string)

  const CannotOverfill := "Cannot fill more than remaining quantity"
  const CannotConvert := "Cannot convert non-market order"

  class Order {
    var orderType: OrderType
    var orderId: OrderId
    var side: Side
    var price: Price
    var initialQuantity: Quantity
    var remainingQuantity: Quantity

    function View(): OrderView
      reads this
    {
      OrderView(orderType, orderId, side, price, initialQuantity, remainingQuantity)
    }

    constructor (orderType: OrderType, orderId: OrderId, side: Side, price: Price, quantity: Quantity)
      ensures View() == NewOrder(orderType, orderId, side, price, quantity)
    {
      this.orderType := orderType;
      this.orderId := orderId;
      this.side := side;
      this.price := price;
      this.initialQuantity := quantity;
      this.remainingQuantity := quantity;
    }

    function GetFilledQuantity(): (q: Quantity)
      reads this
      ensures q + remainingQuantity == initialQuantity
    {
      initialQuantity - remainingQuantity
    }

    predicate IsFilled()
      reads this
    {
      remainingQuantity == 0
    }

    /** Fails, changing nothing, when more than the remaining quantity is asked for;
        a negative quantity is not rejected. */
    method Fill(quantity: Quantity) returns (status: Status)
      modifies this
      ensures quantity > old(remainingQuantity) ==> status == Failed(CannotOverfill) && View() == old(View())
      ensures quantity <= old(remainingQuantity) ==> status == Done && View() == old(View()).Fill(quantity)
      ensures GetFilledQuantity() == old(GetFilledQuantity()) + (if status == Done then quantity else 0)
    {
      if quantity > remainingQuantity {
        return Failed(CannotOverfill);
      }
      remainingQuantity := remainingQuantity - quantity;
      status := Done;
    }

    /** Only a Market order can be converted; it keeps its id, side and quantities. */
    method ToGoodTillCancel(newPrice: Price) returns (status: Status)
      modifies this
      ensures old(orderType) != Market ==> status == Failed(CannotConvert) && View() == old(View())
      ensures old(orderType) == Market ==> status == Done && View() == old(View()).AsGoodTillCancel(newPrice)
    {
      if orderType != Market {
        return Failed(CannotConvert);
      }
      price := newPrice;
      orderType := GoodTillCancel;
      status := Done;
    }
  }

  /** A request to replace a resting order by a new side, price and quantity. */
  datatype OrderModify = OrderModify(orderId: OrderId, side: Side, price: Price, quantity: Quantity) {
    /** The replacement order, as a value. */
    function ToOrder(orderType: OrderType): (o: OrderView)
      ensures o.orderId == orderId && o.side == side && o.price == price
      ensures o.orderType == orderType
      ensures o.initialQuantity == o.remainingQuantity == quantity
    {
      NewOrder(orderType, orderId, side, price, quantity)
    }

    /** The replacement order, as a fresh object. */
    method ToOrderPointer(orderType: OrderType) returns (o: Order)
      ensures fresh(o)
      ensures o.View() == ToOrder(orderType)
    {
      o := new Order(orderType, orderId, side, price, quantity);
    }
  }
}

/** The orders store (`OrdersProvider` in src/context/OrdersContext.tsx): an
    ordered sequence of orders, newest local placement first, replaced by
    `addOrder` (prepend), `updateOrderStatus` (a `map` that rewrites the
    status of matching orders) and `setOrders` (wholesale replacement). */
module OrdersContext {

  /** A snapshot of a cart line at placement time. */
  datatype OrderItem = OrderItem(itemId: int, name: string, price: real, unit: string, quantity: int)

  datatype CustomerInfo = CustomerInfo(
    fullName: string,
    email: string,
    phone: string,
    address: string,
    city: string,
    zipCode: string)

  /** `status` is a plain string: the pages also test values such as
      'in-transit' that the declared union does not list. */
  datatype Order = Order(
    id: string,
    date: string,
    status: string,
    items: seq<OrderItem>,
    total: real,
    customerInfo: CustomerInfo)

  /** The orders after `addOrder(order)`: `[order, ...prevOrders]`. */
  function AfterAddOrder(orders: seq<Order>, order: Order): (r: seq<Order>)
    ensures |r| == |orders| + 1 && r[0] == order && r[1..] == orders
  {
    [order] + orders
  }

  /** The orders after `updateOrderStatus(id, status)`: every order with that
      id has its status replaced, and nothing else about it or about any
      other order changes. No transition rule is consulted. */
  function AfterStatusUpdate(orders: seq<Order>, id: string, status: string): (r: seq<Order>)
    ensures |r| == |orders|
    ensures forall k :: 0 <= k < |orders| ==>
      r[k].id == orders[k].id && r[k].date == orders[k].date &&
      r[k].items == orders[k].items && r[k].total == orders[k].total &&
      r[k].customerInfo == orders[k].customerInfo
    ensures forall k :: 0 <= k < |orders| ==>
      r[k].status == if orders[k].id == id then status else orders[k].status
  {
    if orders == [] then []
    else
      [if orders[0].id == id then orders[0].(status := status) else orders[0]]
      + AfterStatusUpdate(orders[1..], id, status)
  }

  /** An update for an id no order carries is a no-op. */
  lemma StatusUpdateAbsent(orders: seq<Order>, id: string, status: string)
    requires forall k :: 0 <= k < |orders| ==> orders[k].id != id
    ensures AfterStatusUpdate(orders, id, status) == orders
  {
    var r := AfterStatusUpdate(orders, id, status);
    assert forall k :: 0 <= k < |orders| ==> r[k] == orders[k];
  }

  /** The second of two updates of one id wins; in particular doing an
      update twice is doing it once. */
  lemma StatusUpdateLastWins(orders: seq<Order>, id: string, s1: string, s2: string)
    ensures AfterStatusUpdate(AfterStatusUpdate(orders, id, s1), id, s2)
         == AfterStatusUpdate(orders, id, s2)
  {
    var a := AfterStatusUpdate(AfterStatusUpdate(orders, id, s1), id, s2);
    var b := AfterStatusUpdate(orders, id, s2);
    assert forall k :: 0 <= k < |orders| ==> a[k] == b[k];
  }

  /** Any target status is accepted from any current status: a completed
      order can be put back to pending. */
  lemma AnyTransitionAccepted(orders: seq<Order>, k: nat, status: string)
    requires k < |orders|
    ensures AfterStatusUpdate(orders, orders[k].id, status)[k]
         == orders[k].(status := status)
  {
  }

  /** Placing an order and then updating its status touches only the new
      head: its total and items stay as placed. */
  lemma AddThenUpdate(orders: seq<Order>, order: Order, status: string)
    requires forall k :: 0 <= k < |orders| ==> orders[k].id != order.id
    ensures AfterStatusUpdate(AfterAddOrder(orders, order), order.id, status)
         == [order.(status := status)] + orders
  {
    var r := AfterStatusUpdate(AfterAddOrder(orders, order), order.id, status);
    assert r[1..] == orders by {
      assert forall k :: 0 <= k < |orders| ==> r[1..][k] == orders[k];
    }
    assert r == [r[0]] + r[1..];
  }

  /** The store itself: the `orders` state of `OrdersProvider`. */
  class OrdersStore {
    var orders: seq<Order>

    /** `useState<Order[]>([])`: no orders at first. */
    constructor ()
      ensures orders == []
    {
      orders := [];
    }

    /** No duplicate-id check: the order goes in front whatever its id. */
    method AddOrder(order: Order)
      modifies this
      ensures orders == AfterAddOrder(old(orders), order)
    {
      orders := [order] + orders;
    }

    method UpdateOrderStatus(id: string, status: string)
      modifies this
      ensures orders == AfterStatusUpdate(old(orders), id, status)
    {
      orders := AfterStatusUpdate(orders, id, status);
    }

    /** The raw state setter: the given list verbatim, no merge, no sort. */
    method SetOrders(fetched: seq<Order>)
      modifies this
      ensures orders == fetched
    {
      orders := fetched;
    }
  }
}

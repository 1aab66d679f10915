/**
 * The bodies of the order routes (`/api/orders/...`) over a snapshot of the
 * stored orders.  They look orders up and filter them as the chatbot does,
 * but keep their own status sentences, which differ from the chatbot's for
 * shipped orders.
 */
module OrderRoutes {
  import opened Wrappers
  import opened Text
  import opened Store
  import opened ChatbotController

  /** `items.reduce((sum, item) => sum + item.quantity, 0)`: the quantities added from the left. */
  function TotalQuantity(items: seq<OrderItem>): int
    decreases |items|
  {
    if |items| == 0 then 0 else TotalQuantity(items[..|items| - 1]) + items[|items| - 1].quantity
  }

  /** The total of two lists of items put together is the sum of their totals. */
  lemma {:induction false} TotalQuantityAppend(a: seq<OrderItem>, b: seq<OrderItem>)
    ensures TotalQuantity(a + b) == TotalQuantity(a) + TotalQuantity(b)
    decreases |b|
  {
    if |b| == 0 {
      assert a + b == a;
    } else {
      TotalQuantityAppend(a, b[..|b| - 1]);
      assert (a + b)[..|a + b| - 1] == a + b[..|b| - 1];
    }
  }

  /** With every quantity at least one, an order holds at least as many units as it has lines. */
  lemma {:induction false} TotalQuantityAtLeastCount(items: seq<OrderItem>)
    requires forall k :: 0 <= k < |items| ==> items[k].quantity >= 1
    ensures TotalQuantity(items) >= |items|
    decreases |items|
  {
    if |items| > 0 {
      TotalQuantityAtLeastCount(items[..|items| - 1]);
    }
  }

  /**
   * `getStatusMessage(status, order)`: the same table as the chatbot's, except
   * that the shipped sentence always has the tracking clause, with the text
   * "undefined" when the order has no tracking number.
   */
  function GetStatusMessage(status: string, order: Order, fmt: DateFormatter): string
  {
    match StatusOf(status)
    case Pending => "Your order is being processed and will be shipped soon."
    case Processing => "Your order is being prepared for shipment."
    case Shipped =>
      "Your order has been shipped"
      + " with tracking number " + Interpolate(order.trackingNumber)
      + ". Expected delivery: " + fmt(order.estimatedDelivery) + "."
    case Delivered => "Your order was delivered on " + fmt(order.deliveredDate) + "."
    case Cancelled =>
      "Your order was cancelled" + (if Truthy(order.cancelReason) then ": " + order.cancelReason.value else ".")
    case OtherStatus => "Order status unknown."
  }

  /**
   * The routes and the chatbot give the same sentence for every status but
   * shipped, and for shipped orders with a tracking number; for a shipped
   * order without one the route's sentence is longer, since it keeps the
   * tracking clause.
   */
  lemma StatusMessagesAgree(order: Order, fmt: DateFormatter)
    ensures StatusOf(order.status) != Shipped ==>
              GetStatusMessage(order.status, order, fmt) == GetOrderStatusMessage(order, fmt)
    ensures StatusOf(order.status) == Shipped && Truthy(order.trackingNumber) ==>
              GetStatusMessage(order.status, order, fmt) == GetOrderStatusMessage(order, fmt)
    ensures StatusOf(order.status) == Shipped && !Truthy(order.trackingNumber) ==>
              |GetStatusMessage(order.status, order, fmt)| > |GetOrderStatusMessage(order, fmt)|
  {
  }

  /** A shipped order without a tracking number is reported with the tracking number "undefined". */
  lemma ShippedWithoutTrackingSaysUndefined(order: Order, fmt: DateFormatter, m: string)
    requires order.status == "shipped" && order.trackingNumber.None? && m == GetStatusMessage(order.status, order, fmt)
    ensures Contains(m, " with tracking number " + "undefined")
  {
    StatusOfNames(order.status);
    var clause := " with tracking number " + "undefined";
    var date := fmt(order.estimatedDelivery);
    ContainsAdjacent("Your order has been shipped", " with tracking number ", "undefined", ". Expected delivery: ");
    ContainsAppend("Your order has been shipped" + " with tracking number " + "undefined" + ". Expected delivery: ", date, clause);
    ContainsAppend("Your order has been shipped" + " with tracking number " + "undefined" + ". Expected delivery: " + date, ".", clause);
  }

  /** The `data` of `GET /api/orders/:id`: the order with its summary fields. */
  datatype OrderSummary = OrderSummary(order: Order, itemCount: nat, totalItems: int, statusMessage: string)

  /** The 404 message of the routes that look an order up by id. */
  function OrderNotFoundMessage(id: string): string
  {
    "Order with ID " + id + " not found"
  }

  /** `GET /api/orders/:id`. */
  function GetOrder(orders: seq<Order>, id: string, fmt: DateFormatter): RouteResult<OrderSummary>
  {
    match OrderWithId(orders, id)
    case None => NotFound(OrderNotFoundMessage(id))
    case Some(o) => Ok(OrderSummary(o, |o.items|, TotalQuantity(o.items), GetStatusMessage(o.status, o, fmt)))
  }

  /**
   * The order is found by exact id: 404, with a message naming the id,
   * exactly when no stored order has it; otherwise the summary is of a stored
   * order with that id, counting its lines and its units.
   */
  lemma GetOrderOutcome(orders: seq<Order>, id: string, fmt: DateFormatter, r: RouteResult<OrderSummary>)
    requires r == GetOrder(orders, id, fmt)
    ensures r.Ok? || r.NotFound?
    ensures r.NotFound? <==> forall o :: o in orders ==> o.id != id
    ensures r.NotFound? ==> Contains(r.message, id)
    ensures r.Ok? ==> r.body.order in orders && r.body.order.id == id
    ensures r.Ok? ==> r.body.itemCount == |r.body.order.items| && r.body.totalItems == TotalQuantity(r.body.order.items)
    ensures r.Ok? ==> r.body.statusMessage == GetStatusMessage(r.body.order.status, r.body.order, fmt)
  {
    if r.NotFound? {
      NotFoundNamesId(id);
    }
  }

  lemma NotFoundNamesId(id: string)
    ensures Contains(OrderNotFoundMessage(id), id)
  {
    ContainsSelf(id);
    ContainsPrepend("Order with ID ", id, id);
    ContainsAppend("Order with ID " + id, " not found", id);
  }

  /** `GET /api/orders/customer/:customerId`: the customer's orders in store order (`count` is their number). */
  function CustomerOrders(orders: seq<Order>, customerId: string): seq<Order>
  {
    Filter(orders, (o: Order) => o.customerId == customerId)
  }

  /** The customer's orders are exactly the stored orders with that customer id, each as often as it is stored. */
  lemma CustomerOrdersExactly(orders: seq<Order>, customerId: string, o: Order)
    ensures o in CustomerOrders(orders, customerId) <==> o in orders && o.customerId == customerId
    ensures multiset(CustomerOrders(orders, customerId))[o] == if o.customerId == customerId then multiset(orders)[o] else 0
  {
    FilterCount(orders, (o: Order) => o.customerId == customerId, o);
  }

  /** `GET /api/orders/status/:status`: the orders whose status equals the parameter, both lowered. */
  function StatusOrders(orders: seq<Order>, status: string): seq<Order>
  {
    Filter(orders, (o: Order) => Lower(o.status) == Lower(status))
  }

  /**
   * The orders with a status are exactly the stored orders whose status
   * matches it ignoring case, each as often as it is stored; so the
   * parameter's case does not matter.
   */
  lemma StatusOrdersExactly(orders: seq<Order>, status: string, o: Order)
    ensures o in StatusOrders(orders, status) <==> o in orders && Lower(o.status) == Lower(status)
    ensures multiset(StatusOrders(orders, status))[o] == if Lower(o.status) == Lower(status) then multiset(orders)[o] else 0
    ensures StatusOrders(orders, Lower(status)) == StatusOrders(orders, status)
  {
    FilterCount(orders, (o: Order) => Lower(o.status) == Lower(status), o);
    LowerIdempotent(status);
  }

  /** The `data` of `GET /api/orders/:id/track`. */
  datatype TrackingInfo = TrackingInfo(
    orderId: string,
    status: string,
    trackingNumber: Option<string>,
    estimatedDelivery: Option<string>,
    deliveredDate: Option<string>,
    statusMessage: string,
    shippingAddress: Option<string>)

  /** `GET /api/orders/:id/track`. */
  function TrackOrder(orders: seq<Order>, id: string, fmt: DateFormatter): RouteResult<TrackingInfo>
  {
    match OrderWithId(orders, id)
    case None => NotFound(OrderNotFoundMessage(id))
    case Some(o) =>
      Ok(TrackingInfo(o.id, o.status, o.trackingNumber, o.estimatedDelivery, o.deliveredDate,
                      GetStatusMessage(o.status, o, fmt), o.shippingAddress))
  }

  /**
   * Tracking finds the same order as `GET /api/orders/:id`: both fail
   * together with the same message, and otherwise the tracking fields are
   * copied from that order and its status sentence is the summary's.
   */
  lemma TrackOrderAgrees(orders: seq<Order>, id: string, fmt: DateFormatter, t: RouteResult<TrackingInfo>, g: RouteResult<OrderSummary>)
    requires t == TrackOrder(orders, id, fmt) && g == GetOrder(orders, id, fmt)
    ensures t.NotFound? <==> g.NotFound?
    ensures t.NotFound? ==> t.message == g.message && Contains(t.message, id)
    ensures t.Ok? ==> g.Ok? && t.body.orderId == id && t.body.status == g.body.order.status
                      && t.body.trackingNumber == g.body.order.trackingNumber
                      && t.body.estimatedDelivery == g.body.order.estimatedDelivery
                      && t.body.deliveredDate == g.body.order.deliveredDate
                      && t.body.shippingAddress == g.body.order.shippingAddress
                      && t.body.statusMessage == g.body.statusMessage
  {
    if t.NotFound? {
      NotFoundNamesId(id);
    }
  }
}

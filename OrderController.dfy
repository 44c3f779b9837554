/**
 * The order handlers: checkout (create the order, then ask the payment
 * processor for a client secret), reading one order, listing the caller's
 * orders, and the pay transition with its cart and stock side effects.
 */
module OrderController {
  import opened Models
  import Cart
  import Orders

  const NoOrderItems := "No order items"
  const OrderNotFound := "Order not found"
  const NotAuthorized := "Not authorized to view this order"
  const ProceedToPayment := "Order created, proceed to payment."

  /** What the payment processor answered when asked for a payment intent. */
  datatype IntentOutcome = IntentCreated(clientSecret: string) | IntentFailed(message: string)

  /** The body addOrderItems answers with on success. */
  datatype Created = Created(orderId: OrderId, clientSecret: string, message: string)

  /**
   * addOrderItems. `newId` is the id the database assigns to the new order and
   * `intent` what the payment processor answered. The order is saved before the
   * processor is asked, so it stays saved when the processor fails.
   */
  method AddOrderItems(orders: OrderStore, u: UserId, req: Orders.OrderRequest, newId: OrderId,
                       intent: IntentOutcome)
    returns (r: Response<Created>)
    requires newId !in orders.docs
    modifies orders
    ensures Orders.Rejected(req) ==> r == Fail(BadRequest, NoOrderItems) && orders.docs == old(orders.docs)
    ensures !Orders.Rejected(req) ==> orders.docs == old(orders.docs)[newId := Orders.NewOrder(u, req)]
    ensures !Orders.Rejected(req) && intent.IntentCreated? ==>
      r == Ok(Created(newId, intent.clientSecret, ProceedToPayment))
    ensures !Orders.Rejected(req) && intent.IntentFailed? ==> r == Fail(Unhandled, intent.message)
  {
    if req.orderItems.Some? && |req.orderItems.value| == 0 {
      return Fail(BadRequest, NoOrderItems);
    }
    var order := Orders.NewOrder(u, req);
    orders.Save(newId, order);
    match intent
    case IntentCreated(secret) =>
      r := Ok(Created(newId, secret, ProceedToPayment));
    case IntentFailed(message) =>
      r := Fail(Unhandled, message);
  }

  /** getOrderById: the order, for its owner or an admin; 403 for anyone else, 404 if missing. */
  function GetOrderById(orders: map<OrderId, Order>, who: Principal, id: OrderId): (r: Response<Order>)
    ensures r.Ok? <==> id in orders && Orders.MayView(orders[id], who)
    ensures r.Ok? ==> r.value == orders[id]
    ensures id !in orders ==> r == Fail(NotFound, OrderNotFound)
    ensures id in orders && !Orders.MayView(orders[id], who) ==> r == Fail(Forbidden, NotAuthorized)
  {
    if id in orders then
      if orders[id].user == who.id || who.isAdmin then Ok(orders[id]) else Fail(Forbidden, NotAuthorized)
    else
      Fail(NotFound, OrderNotFound)
  }

  /** getMyOrders: `Order.find({user: u})`, keyed by order id. */
  function GetMyOrders(orders: map<OrderId, Order>, u: UserId): (r: map<OrderId, Order>)
    ensures forall id :: id in r <==> id in orders && orders[id].user == u
    ensures forall id :: id in r ==> r[id] == orders[id]
  {
    map id | id in orders && orders[id].user == u :: orders[id]
  }

  /**
   * updateOrderToPaid. `u` is the requesting user (not necessarily the order's
   * owner), `payment` the confirmation details from the body and `now` the clock.
   * There is no paid-already guard and no stock floor.
   */
  method UpdateOrderToPaid(orders: OrderStore, users: UserStore, products: ProductStore,
                           u: UserId, id: OrderId, payment: PaymentResult, now: int)
    returns (r: Response<Order>)
    modifies orders, users, products
    ensures id !in old(orders.docs) ==>
      && r == Fail(NotFound, OrderNotFound)
      && orders.docs == old(orders.docs) && users.docs == old(users.docs)
      && products.docs == old(products.docs)
    ensures id in old(orders.docs) ==>
      var paid := Orders.MarkPaid(old(orders.docs)[id], payment, now);
      && orders.docs == old(orders.docs)[id := paid]
      && users.docs == Cart.ClearedCartOf(old(users.docs), u)
      && products.docs == Orders.Decremented(old(products.docs), paid.orderItems)
      && r == Ok(paid)
  {
    if id !in orders.docs {
      return Fail(NotFound, OrderNotFound);
    }
    var order := orders.docs[id];
    order := order.(isPaid := true, paidAt := Some(now), paymentResult := Some(payment));
    orders.Save(id, order);
    var updatedOrder := order;

    if u in users.docs {
      var user := users.docs[u];
      user := user.(cart := []);
      users.Save(u, user);
    }

    var items := updatedOrder.orderItems;
    var i := 0;
    while i < |items|
      invariant 0 <= i <= |items|
      invariant products.docs == Orders.Decremented(old(products.docs), items[..i])
      modifies products
    {
      var item := items[i];
      if item.product in products.docs {
        var countInStock := products.docs[item.product];
        products.Save(item.product, countInStock - item.qty);
      }
      assert items[..i + 1][..i] == items[..i];
      i := i + 1;
    }
    assert items[..i] == items;
    r := Ok(updatedOrder);
  }

  // ------------------------------------------------------------- read access

  /** A non-admin can read exactly the orders listed as theirs. */
  lemma NonAdminSeesOnlyOwnOrders(orders: map<OrderId, Order>, who: Principal, id: OrderId)
    requires !who.isAdmin
    ensures GetOrderById(orders, who, id).Ok? <==> id in GetMyOrders(orders, who.id)
  {
  }

  /** An admin can read every existing order. */
  lemma AdminSeesEveryOrder(orders: map<OrderId, Order>, who: Principal, id: OrderId)
    requires who.isAdmin
    ensures GetOrderById(orders, who, id).Ok? <==> id in orders
  {
  }

  /** Creating an order adds it to the requester's list and to nobody else's. */
  lemma CreateAddsToOwnList(orders: map<OrderId, Order>, u: UserId, req: Orders.OrderRequest,
                            newId: OrderId, v: UserId)
    requires newId !in orders
    ensures var after := orders[newId := Orders.NewOrder(u, req)];
      GetMyOrders(after, v) == if v == u then GetMyOrders(orders, u)[newId := Orders.NewOrder(u, req)]
                               else GetMyOrders(orders, v)
  {
  }

  /** Paying an order moves it to nobody else's list, whoever requested the payment. */
  lemma PayKeepsListMembership(orders: map<OrderId, Order>, id: OrderId, payment: PaymentResult,
                               now: int, v: UserId)
    requires id in orders
    ensures var after := orders[id := Orders.MarkPaid(orders[id], payment, now)];
      GetMyOrders(after, v).Keys == GetMyOrders(orders, v).Keys
  {
  }
}

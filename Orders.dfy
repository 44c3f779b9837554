/**
 * Orders as values: the order record built from a checkout request, the
 * paid flag transition, who may read an order, and the stock change that
 * payment applies, with the properties relating them.
 */
module Orders {
  import opened Models

  /** The body of a checkout request. `orderItems` may be absent from it. */
  datatype OrderRequest = OrderRequest(
    orderItems: Option<seq<OrderItem>>,
    shippingAddress: Address,
    paymentMethod: PaymentMethod,
    itemsPrice: Money,
    taxPrice: Money,
    shippingPrice: Money,
    totalPrice: Money)

  /** The only validation addOrderItems does: a present but empty item list is refused. */
  predicate Rejected(req: OrderRequest)
  {
    req.orderItems == Some([])
  }

  /** `new Order({user, orderItems, ...})`: owned by the requester, not paid. An absent item
      list is stored as an empty one. */
  function NewOrder(user: UserId, req: OrderRequest): (o: Order)
  {
    var items := match req.orderItems case Some(items) => items case None => [];
    Order(user, items, req.shippingAddress, req.paymentMethod,
          req.itemsPrice, req.taxPrice, req.shippingPrice, req.totalPrice,
          false, None, None)
  }

  /** The order after the pay handler sets `isPaid`, `paidAt` and `paymentResult`. */
  function MarkPaid(o: Order, payment: PaymentResult, now: int): (p: Order)
  {
    o.(isPaid := true, paidAt := Some(now), paymentResult := Some(payment))
  }

  /** getOrderById's authorisation rule: the owner, or any admin. */
  predicate MayView(o: Order, who: Principal)
  {
    o.user == who.id || who.isAdmin
  }

  /** Total quantity ordered of product `p` over the lines of `items`. */
  function QtySum(items: seq<OrderItem>, p: ProductId): (n: int)
  {
    if items == [] then 0
    else QtySum(items[..|items| - 1], p) + (if items[|items| - 1].product == p then items[|items| - 1].qty else 0)
  }

  /** One step of the stock loop: `countInStock -= qty` when the product exists, else nothing. */
  function DecrementOne(stock: map<ProductId, int>, item: OrderItem): (s: map<ProductId, int>)
  {
    if item.product in stock then stock[item.product := stock[item.product] - item.qty] else stock
  }

  /** The stock after the loop has processed `items` in order. */
  function Decremented(stock: map<ProductId, int>, items: seq<OrderItem>): (s: map<ProductId, int>)
  {
    if items == [] then stock
    else DecrementOne(Decremented(stock, items[..|items| - 1]), items[|items| - 1])
  }

  // ------------------------------------------------------------ order creation

  /** The created order belongs to the requester, stores the items and the four prices exactly
      as supplied, and starts unpaid with no payment result. */
  lemma NewOrderStoresRequest(user: UserId, req: OrderRequest)
    requires !Rejected(req)
    ensures var o := NewOrder(user, req);
      && o.user == user
      && (req.orderItems.Some? ==> o.orderItems == req.orderItems.value && o.orderItems != [])
      && o.itemsPrice == req.itemsPrice && o.taxPrice == req.taxPrice
      && o.shippingPrice == req.shippingPrice && o.totalPrice == req.totalPrice
      && o.shippingAddress == req.shippingAddress && o.paymentMethod == req.paymentMethod
      && !o.isPaid && o.paidAt == None && o.paymentResult == None
  {
  }

  /** An absent item list passes the guard and yields an order with no lines. */
  lemma AbsentItemsAccepted(user: UserId, req: OrderRequest)
    requires req.orderItems == None
    ensures !Rejected(req) && NewOrder(user, req).orderItems == []
  {
  }

  // ---------------------------------------------------------------- payment

  /** Marking paid sets the flag and the payment result and keeps everything the client supplied:
      whatever the order's state, including an order that is already paid. */
  lemma MarkPaidEffect(o: Order, payment: PaymentResult, now: int)
    ensures var p := MarkPaid(o, payment, now);
      && p.isPaid && p.paymentResult == Some(payment) && p.paidAt == Some(now)
      && p.user == o.user && p.orderItems == o.orderItems
      && p.itemsPrice == o.itemsPrice && p.taxPrice == o.taxPrice
      && p.shippingPrice == o.shippingPrice && p.totalPrice == o.totalPrice
      && p.shippingAddress == o.shippingAddress && p.paymentMethod == o.paymentMethod
  {
  }

  /** Pay has no paid-already guard: paying an order again re-stamps it. The last pay's payment
      result and clock reading win, and a repeat at another time gives a different record. */
  lemma MarkPaidLastWins(o: Order, p1: PaymentResult, t1: int, p2: PaymentResult, t2: int)
    ensures MarkPaid(MarkPaid(o, p1, t1), p2, t2) == MarkPaid(o, p2, t2)
    ensures t1 != t2 || p1 != p2 ==> MarkPaid(MarkPaid(o, p1, t1), p2, t2) != MarkPaid(o, p1, t1)
  {
  }

  /** Paying changes neither who owns the order nor who may read it. */
  lemma MarkPaidKeepsView(o: Order, payment: PaymentResult, now: int, who: Principal)
    ensures MayView(MarkPaid(o, payment, now), who) <==> MayView(o, who)
  {
  }

  /** The stock loop: the same products exist afterwards, and each one's count has dropped by the
      total quantity ordered of it. Lines naming a missing product are skipped, and nothing stops
      a count from going below zero. */
  lemma {:induction false} DecrementedStock(stock: map<ProductId, int>, items: seq<OrderItem>)
    ensures Decremented(stock, items).Keys == stock.Keys
    ensures forall p :: p in stock ==> Decremented(stock, items)[p] == stock[p] - QtySum(items, p)
  {
    if items != [] {
      DecrementedStock(stock, items[..|items| - 1]);
    }
  }

  /** A product that no line names keeps its count. */
  lemma {:induction false} QtySumUnnamed(items: seq<OrderItem>, p: ProductId)
    requires forall k :: 0 <= k < |items| ==> items[k].product != p
    ensures QtySum(items, p) == 0
  {
    if items != [] {
      QtySumUnnamed(items[..|items| - 1], p);
    }
  }

  /** A product that no line names keeps its count, and a missing product is not created. */
  lemma {:induction false} UnnamedProductUnchanged(stock: map<ProductId, int>, items: seq<OrderItem>, p: ProductId)
    requires forall k :: 0 <= k < |items| ==> items[k].product != p
    ensures p in Decremented(stock, items) <==> p in stock
    ensures p in stock ==> Decremented(stock, items)[p] == stock[p]
  {
    DecrementedStock(stock, items);
    QtySumUnnamed(items, p);
  }

  /** Stock is not floored: ordering more than is in stock leaves a negative count. */
  lemma StockCanGoNegative(stock: map<ProductId, int>, items: seq<OrderItem>, p: ProductId)
    requires p in stock && QtySum(items, p) > stock[p]
    ensures p in Decremented(stock, items) && Decremented(stock, items)[p] < 0
  {
    DecrementedStock(stock, items);
  }

  /** Pay has no paid-already guard: running the stock loop a second time for the same order
      takes each ordered quantity off again. */
  lemma PayTwiceDecrementsTwice(stock: map<ProductId, int>, items: seq<OrderItem>)
    ensures Decremented(Decremented(stock, items), items).Keys == stock.Keys
    ensures forall p :: p in stock ==>
      Decremented(Decremented(stock, items), items)[p] == stock[p] - 2 * QtySum(items, p)
  {
    DecrementedStock(stock, items);
    DecrementedStock(Decremented(stock, items), items);
  }
}

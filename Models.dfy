/**
 * The persistent documents of the shop backend and the three collections
 * (users, products, orders) the controllers read and write.
 *
 * Document ids are compared only for equality, so they are opaque types.
 * Prices, addresses, payment methods and the user fields the controllers
 * never touch are copied verbatim, so they are opaque types too.
 */
module Models {

  type UserId(==, !new)
  type ProductId(==, !new)
  type OrderId(==, !new)

  /** A price field as supplied by the client (never computed with here). */
  type Money(==, !new)
  /** The shipping address of an order, stored as supplied. */
  type Address(==, !new)
  /** The payment method of an order, stored as supplied. */
  type PaymentMethod(==, !new)
  /** Everything in a user document except the cart; opaque, since the User schema is not part of this model. */
  type Profile(==, !new)
  /** Everything in an order line except the product and quantity; opaque, since the Order schema is not part of this model. */
  type ItemDetails(==, !new)

  datatype Option<T> = None | Some(value: T)

  /** One line of a user's cart. */
  datatype CartItem = CartItem(product: ProductId, quantity: int)

  /** A user document; only its cart is changed by the controllers. */
  datatype User = User(profile: Profile, cart: seq<CartItem>)

  /** One line of an order. */
  datatype OrderItem = OrderItem(product: ProductId, qty: int, details: ItemDetails)

  /** The payment details copied from the confirmation request. */
  datatype PaymentResult = PaymentResult(id: string, status: string, updateTime: string, emailAddress: string)

  /** An order document. `paidAt` holds the clock reading taken when it was marked paid. */
  datatype Order = Order(
    user: UserId,
    orderItems: seq<OrderItem>,
    shippingAddress: Address,
    paymentMethod: PaymentMethod,
    itemsPrice: Money,
    taxPrice: Money,
    shippingPrice: Money,
    totalPrice: Money,
    isPaid: bool,
    paidAt: Option<int>,
    paymentResult: Option<PaymentResult>)

  /** The authenticated caller, as the protection middleware supplies it. */
  datatype Principal = Principal(id: UserId, isAdmin: bool)

  /**
   * The error outcome of a handler: the HTTP status it set before throwing
   * (400, 403 or 404). `Unhandled` is a throw with no status set; which status
   * such a response then carries is not modelled.
   */
  datatype Status = BadRequest | Forbidden | NotFound | Unhandled

  /** What a handler sends: a JSON value, or an error status and message. */
  datatype Response<T> = Ok(value: T) | Fail(status: Status, message: string)

  /** The User collection. */
  class UserStore {
    var docs: map<UserId, User>

    /** `user.save()`: write the document back under its id. */
    method Save(id: UserId, u: User)
      modifies this
      ensures docs == old(docs)[id := u]
    {
      docs := docs[id := u];
    }
  }

  /** The Product collection, reduced to each product's `countInStock`. */
  class ProductStore {
    var docs: map<ProductId, int>

    /** `product.save()` after changing `countInStock`. */
    method Save(id: ProductId, countInStock: int)
      modifies this
      ensures docs == old(docs)[id := countInStock]
    {
      docs := docs[id := countInStock];
    }
  }

  /** The Order collection. */
  class OrderStore {
    var docs: map<OrderId, Order>

    /** `order.save()`: insert a new order or overwrite an existing one. */
    method Save(id: OrderId, o: Order)
      modifies this
      ensures docs == old(docs)[id := o]
    {
      docs := docs[id := o];
    }
  }
}

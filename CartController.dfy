/**
 * The cart handlers. Each loads the requesting user's document, changes its
 * cart in place and saves it; an unknown user is a 404 "User not found" that
 * leaves every document as it was.
 */
module CartController {
  import opened Models
  import Cart

  const UserNotFound := "User not found"
  const ProductNotInCart := "Product not found in cart"
  const CartCleared := "Cart cleared successfully"

  /** The body clearCart answers with. */
  datatype ClearReply = ClearReply(message: string, cart: seq<CartItem>)

  /**
   * getCart / getFormattedCart: the user's cart as stored. A missing user is
   * thrown with no status set, so it surfaces as an unhandled error.
   */
  function GetCart(users: map<UserId, User>, u: UserId): (r: Response<seq<CartItem>>)
    ensures r.Ok? <==> u in users
    ensures r.Ok? ==> r.value == users[u].cart
    ensures r.Fail? ==> r == Fail(Unhandled, UserNotFound)
  {
    if u in users then Ok(users[u].cart) else Fail(Unhandled, UserNotFound)
  }

  /** addToCart: overwrite the quantity of the product's line, or append a line for it. */
  method AddToCart(users: UserStore, u: UserId, productId: ProductId, quantity: int)
    returns (r: Response<seq<CartItem>>)
    modifies users
    ensures u !in old(users.docs) ==> r == Fail(NotFound, UserNotFound) && users.docs == old(users.docs)
    ensures u in old(users.docs) ==>
      var was := old(users.docs)[u];
      && users.docs == old(users.docs)[u := was.(cart := Cart.Upsert(was.cart, productId, quantity))]
      && r == Ok(users.docs[u].cart)
  {
    if u !in users.docs {
      return Fail(NotFound, UserNotFound);
    }
    var user := users.docs[u];
    var itemIndex := Cart.FindIndex(user.cart, productId);
    if itemIndex > -1 {
      user := user.(cart := user.cart[itemIndex := user.cart[itemIndex].(quantity := quantity)]);
    } else {
      user := user.(cart := user.cart + [CartItem(productId, quantity)]);
    }
    users.Save(u, user);
    r := GetCart(users.docs, u);
  }

  /** updateCart: overwrite the quantity of the product's line; 404 when it has none. */
  method UpdateCart(users: UserStore, u: UserId, productId: ProductId, quantity: int)
    returns (r: Response<seq<CartItem>>)
    modifies users
    ensures u !in old(users.docs) ==> r == Fail(NotFound, UserNotFound) && users.docs == old(users.docs)
    ensures u in old(users.docs) && !Cart.Contains(old(users.docs)[u].cart, productId) ==>
      r == Fail(NotFound, ProductNotInCart) && users.docs == old(users.docs)
    ensures u in old(users.docs) && Cart.Contains(old(users.docs)[u].cart, productId) ==>
      var was := old(users.docs)[u];
      && users.docs == old(users.docs)[u := was.(cart := Cart.Update(was.cart, productId, quantity).value)]
      && r == Ok(users.docs[u].cart)
  {
    if u !in users.docs {
      return Fail(NotFound, UserNotFound);
    }
    var user := users.docs[u];
    var itemIndex := Cart.FindIndex(user.cart, productId);
    if itemIndex > -1 {
      user := user.(cart := user.cart[itemIndex := user.cart[itemIndex].(quantity := quantity)]);
      users.Save(u, user);
      r := GetCart(users.docs, u);
    } else {
      r := Fail(NotFound, ProductNotInCart);
    }
  }

  /** removeFromCart: drop every line naming the product. */
  method RemoveFromCart(users: UserStore, u: UserId, productId: ProductId)
    returns (r: Response<seq<CartItem>>)
    modifies users
    ensures u !in old(users.docs) ==> r == Fail(NotFound, UserNotFound) && users.docs == old(users.docs)
    ensures u in old(users.docs) ==>
      var was := old(users.docs)[u];
      && users.docs == old(users.docs)[u := was.(cart := Cart.Remove(was.cart, productId))]
      && r == Ok(users.docs[u].cart)
  {
    if u !in users.docs {
      return Fail(NotFound, UserNotFound);
    }
    var user := users.docs[u];
    user := user.(cart := Cart.Remove(user.cart, productId));
    users.Save(u, user);
    r := GetCart(users.docs, u);
  }

  /** clearCart: empty the cart. */
  method ClearCart(users: UserStore, u: UserId) returns (r: Response<ClearReply>)
    modifies users
    ensures u !in old(users.docs) ==> r == Fail(NotFound, UserNotFound) && users.docs == old(users.docs)
    ensures u in old(users.docs) ==>
      users.docs == Cart.ClearedCartOf(old(users.docs), u) && r == Ok(ClearReply(CartCleared, []))
  {
    if u !in users.docs {
      return Fail(NotFound, UserNotFound);
    }
    var user := users.docs[u];
    user := user.(cart := []);
    users.Save(u, user);
    r := Ok(ClearReply(CartCleared, []));
  }
}

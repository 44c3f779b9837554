/**
 * The cart of a user as a sequence of lines, and the changes the cart
 * handlers make to it, stated as functions on that sequence.
 */
module Cart {
  import opened Models

  /** Some line of the cart names product `p`. */
  predicate Contains(cart: seq<CartItem>, p: ProductId)
  {
    exists j :: 0 <= j < |cart| && cart[j].product == p
  }

  /** No product appears on two lines. */
  predicate Distinct(cart: seq<CartItem>)
  {
    forall i, j :: 0 <= i < j < |cart| ==> cart[i].product != cart[j].product
  }

  /** `cart.findIndex(item => item.product === p)`: the first line naming `p`, or -1. */
  function FindIndex(cart: seq<CartItem>, p: ProductId): (i: int)
    ensures -1 <= i < |cart|
    ensures i == -1 <==> !Contains(cart, p)
    ensures 0 <= i ==> cart[i].product == p
    ensures forall j :: 0 <= j < i ==> cart[j].product != p
  {
    if cart == [] then -1
    else if cart[0].product == p then 0
    else
      var k := FindIndex(cart[1..], p);
      assert forall j :: 1 <= j < |cart| ==> cart[j] == cart[1..][j - 1];
      if k == -1 then -1 else k + 1
  }

  /** addToCart: overwrite the quantity of the first line naming `p`, or append a new line. */
  function Upsert(cart: seq<CartItem>, p: ProductId, q: int): (r: seq<CartItem>)
  {
    var i := FindIndex(cart, p);
    if i > -1 then cart[i := cart[i].(quantity := q)] else cart + [CartItem(p, q)]
  }

  /** updateCart: like addToCart when `p` is in the cart, and a failure (None) otherwise. */
  function Update(cart: seq<CartItem>, p: ProductId, q: int): (r: Option<seq<CartItem>>)
  {
    var i := FindIndex(cart, p);
    if i > -1 then Some(cart[i := cart[i].(quantity := q)]) else None
  }

  /** removeFromCart: `cart.filter(item => item.product !== p)`. */
  function Remove(cart: seq<CartItem>, p: ProductId): (r: seq<CartItem>)
    ensures |r| <= |cart|
    ensures !Contains(r, p)
    ensures forall x :: x in r <==> x in cart && x.product != p
  {
    if cart == [] then []
    else if cart[0].product == p then Remove(cart[1..], p)
    else [cart[0]] + Remove(cart[1..], p)
  }

  /** The user map after `user.cart = []` for user `u`, when that user exists. */
  function ClearedCartOf(users: map<UserId, User>, u: UserId): (r: map<UserId, User>)
    ensures r.Keys == users.Keys
    ensures u in users ==> r[u].cart == [] && r[u].profile == users[u].profile
    ensures forall v :: v in users && v != u ==> r[v] == users[v]
  {
    if u in users then users[u := users[u].(cart := [])] else users
  }

  // ---------------------------------------------------------------- addToCart

  /** On a product already in the cart, addToCart overwrites (does not add to) the first line's
      quantity; the length and every other line stay as they were. */
  lemma UpsertOverwrites(cart: seq<CartItem>, p: ProductId, q: int, i: nat)
    requires i < |cart| && cart[i].product == p
    requires forall j :: 0 <= j < i ==> cart[j].product != p
    ensures |Upsert(cart, p, q)| == |cart|
    ensures Upsert(cart, p, q)[i] == CartItem(p, q)
    ensures forall j :: 0 <= j < |cart| && j != i ==> Upsert(cart, p, q)[j] == cart[j]
  {
  }

  /** On a product not in the cart, addToCart appends one line at the end. */
  lemma UpsertAppends(cart: seq<CartItem>, p: ProductId, q: int)
    requires !Contains(cart, p)
    ensures |Upsert(cart, p, q)| == |cart| + 1
    ensures Upsert(cart, p, q)[..|cart|] == cart
    ensures Upsert(cart, p, q)[|cart|] == CartItem(p, q)
  {
  }

  /** Either way, the cart then holds `p` with quantity `q` on its first line for `p`. */
  lemma UpsertThenFind(cart: seq<CartItem>, p: ProductId, q: int)
    ensures var r := Upsert(cart, p, q);
      Contains(r, p) && r[FindIndex(r, p)] == CartItem(p, q)
  {
    var r := Upsert(cart, p, q);
    var i := FindIndex(cart, p);
    if i > -1 {
      UpsertOverwrites(cart, p, q, i);
      assert r[i].product == p;
    } else {
      assert r[|cart|].product == p;
    }
  }

  /** addToCart keeps a cart free of duplicate products. */
  lemma UpsertKeepsDistinct(cart: seq<CartItem>, p: ProductId, q: int)
    requires Distinct(cart)
    ensures Distinct(Upsert(cart, p, q))
  {
  }

  // --------------------------------------------------------------- updateCart

  /** updateCart fails exactly when the product is not in the cart. */
  lemma UpdateFailsIffAbsent(cart: seq<CartItem>, p: ProductId, q: int)
    ensures Update(cart, p, q) == None <==> !Contains(cart, p)
  {
  }

  /** When it succeeds, updateCart changes the cart exactly as addToCart would: only the first
      line naming the product, and only its quantity. */
  lemma UpdateIsUpsertWhenPresent(cart: seq<CartItem>, p: ProductId, q: int)
    requires Contains(cart, p)
    ensures Update(cart, p, q) == Some(Upsert(cart, p, q))
    ensures var r := Update(cart, p, q).value;
      |r| == |cart| &&
      (forall j :: 0 <= j < |cart| ==> r[j].product == cart[j].product) &&
      (forall j :: 0 <= j < |cart| && j != FindIndex(cart, p) ==> r[j] == cart[j]) &&
      r[FindIndex(cart, p)].quantity == q
  {
  }

  /** updateCart keeps a cart free of duplicate products. */
  lemma UpdateKeepsDistinct(cart: seq<CartItem>, p: ProductId, q: int)
    requires Distinct(cart) && Contains(cart, p)
    ensures Distinct(Update(cart, p, q).value)
  {
  }

  // ----------------------------------------------------------- removeFromCart

  /** Filtering distributes over concatenation: together with the one-line cases this says the
      kept lines appear in their original order. */
  lemma {:induction false} RemoveAppend(a: seq<CartItem>, b: seq<CartItem>, p: ProductId)
    ensures Remove(a + b, p) == Remove(a, p) + Remove(b, p)
  {
    if a == [] {
      assert a + b == b;
    } else {
      assert (a + b)[0] == a[0];
      assert (a + b)[1..] == a[1..] + b;
      RemoveAppend(a[1..], b, p);
    }
  }

  /** The one-line cases of the filter. */
  lemma RemoveSingle(x: CartItem, p: ProductId)
    ensures Remove([x], p) == if x.product == p then [] else [x]
  {
  }

  /** Removing a product that is not in the cart changes nothing (and does not fail). */
  lemma {:induction false} RemoveAbsent(cart: seq<CartItem>, p: ProductId)
    requires !Contains(cart, p)
    ensures Remove(cart, p) == cart
  {
    if cart != [] {
      assert cart[0].product != p;
      assert !Contains(cart[1..], p) by {
        assert forall j :: 0 <= j < |cart[1..]| ==> cart[1..][j] == cart[j + 1];
      }
      RemoveAbsent(cart[1..], p);
      assert cart == [cart[0]] + cart[1..];
    }
  }

  /** Removing twice is removing once. */
  lemma {:induction false} RemoveIdempotent(cart: seq<CartItem>, p: ProductId)
    ensures Remove(Remove(cart, p), p) == Remove(cart, p)
  {
    RemoveAbsent(Remove(cart, p), p);
  }

  /** The kept lines form a subsequence of the cart: removing keeps a duplicate-free cart so. */
  lemma {:induction false} RemoveKeepsDistinct(cart: seq<CartItem>, p: ProductId)
    requires Distinct(cart)
    ensures Distinct(Remove(cart, p))
  {
    if cart != [] {
      var tail := cart[1..];
      assert Distinct(tail) by {
        assert forall j :: 0 <= j < |tail| ==> tail[j] == cart[j + 1];
      }
      RemoveKeepsDistinct(tail, p);
      if cart[0].product != p {
        var r := Remove(tail, p);
        assert forall y :: y in r ==> y.product != cart[0].product by {
          forall y | y in r ensures y.product != cart[0].product {
            assert y in tail;
            var j :| 0 <= j < |tail| && tail[j] == y;
            assert cart[j + 1] == y;
          }
        }
        assert forall j :: 0 < j < |[cart[0]] + r| ==> ([cart[0]] + r)[j] == r[j - 1];
      }
    }
  }

  // ---------------------------------------------------------------- clearCart

  /** Clearing a user's cart twice is clearing it once. */
  lemma ClearedCartOfIdempotent(users: map<UserId, User>, u: UserId)
    ensures ClearedCartOf(ClearedCartOf(users, u), u) == ClearedCartOf(users, u)
  {
  }
}

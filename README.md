# Native Bites shop backend: cart and order controllers

This project models the two Mongoose controllers of the shop backend that change state.

- **Cart controller.** It handles get, add, update, remove and clear on the cart that each user document holds.
- **Order controller.** It handles checkout, reading one order, listing the caller's orders, and the pay transition.

The three collections are classes in `Models.dfy`: `UserStore`, `ProductStore` and `OrderStore`. Each holds a map from document id to document. `Model.findById` is a map read. `doc.save()` is a `Save` call that writes the map. Every handler that changes state is one sequential method. The three pure reads (`getCart`, `getOrderById`, `getMyOrders`) are functions. When a handler fails, it returns `Fail(status, message)` with the status it set (400, 403 or 404) and the exact message it throws. `Unhandled` stands for a throw with no status set; the model does not say which status the response then carries.

Each handler's postcondition gives its whole new state in terms of the old state. It uses the pure functions in `Cart.dfy` and `Orders.dfy`, and the lemmas there state what those functions mean:

- `addToCart` overwrites the quantity of the first line for a product, or appends one line.
- `updateCart` does the same, but only when the product is already in the cart.
- `removeFromCart` is an order-preserving filter, and it is idempotent.
- Pay marks the order paid, copies the payment result, and empties the cart of the user who makes the request (who may not own the order). For every line whose product exists, it subtracts the line's quantity from that product's stock.

The model records what the code does not check, and adds no checks of its own:

- Pay has no paid-already guard. A second pay takes the stock off again (`Orders.PayTwiceDecrementsTwice`).
- Stock has no floor and can go negative (`Orders.StockCanGoNegative`).
- Pay does not check who owns the order.

Values that come from outside the program are parameters:

- the clock reading stored in `paidAt`;
- the id the database assigns to a new order;
- the payment processor's answer.

## Model

| member | source | states |
|---|---|---|
| Models.UserStore.Save | Backend/controllers/cartController.js:46 | saving a user document replaces that id's entry and no other |
| Models.ProductStore.Save | Backend/controllers/orderController.js:111-112 | saving a product replaces that id's stock count and no other |
| Models.OrderStore.Save | Backend/controllers/orderController.js:39 | saving an order inserts or replaces that id's entry and no other |
| Cart.FindIndex | Backend/controllers/cartController.js:34-36 | the result is -1 exactly when no line names the product; otherwise it is the index of the first line naming it |
| Cart.Remove | Backend/controllers/cartController.js:93 | no line for the product is left; a line is kept exactly when it was in the cart and names another product; the cart never grows |
| Cart.ClearedCartOf | Backend/controllers/orderController.js:101-105 | an existing user ends with an empty cart and the same profile; a missing user is not created; every other user is unchanged |
| Cart.Upsert | Backend/controllers/cartController.js:34-44 | no contract of its own (it is addToCart's cart change); its meaning is stated by Cart.UpsertOverwrites, Cart.UpsertAppends, Cart.UpsertThenFind and Cart.UpsertKeepsDistinct |
| Cart.Update | Backend/controllers/cartController.js:65-68 | no contract of its own (it is updateCart's cart change, None when the product is absent); its meaning is stated by Cart.UpdateFailsIffAbsent, Cart.UpdateIsUpsertWhenPresent and Cart.UpdateKeepsDistinct |
| Cart.UpsertOverwrites | Backend/controllers/cartController.js:34-40 | for a product in the cart, the first line naming it gets the new quantity (it is overwritten, not added to); the length and every other line are unchanged |
| Cart.UpsertAppends | Backend/controllers/cartController.js:41-44 | for a product not in the cart, one line `{product, quantity}` is appended after the unchanged earlier lines |
| Cart.UpsertThenFind | Backend/controllers/cartController.js:34-44 | after addToCart, looking the product up finds it with exactly the quantity just given |
| Cart.UpsertKeepsDistinct | Backend/controllers/cartController.js:34-44 | a cart that holds each product at most once still does after addToCart |
| Cart.UpdateFailsIffAbsent | Backend/controllers/cartController.js:65-75 | updateCart fails exactly when the product is not in the cart |
| Cart.UpdateIsUpsertWhenPresent | Backend/controllers/cartController.js:65-68 | on a product in the cart, updateCart equals addToCart: same length, same products on every line, only the first matching line's quantity changes |
| Cart.UpdateKeepsDistinct | Backend/controllers/cartController.js:65-68 | a successful updateCart keeps a cart free of duplicate products |
| Cart.RemoveAppend | Backend/controllers/cartController.js:93 | the filter distributes over concatenation, so kept lines stay in their original order |
| Cart.RemoveSingle | Backend/controllers/cartController.js:93 | on one line, the filter drops that line exactly when it names the product |
| Cart.RemoveAbsent | Backend/controllers/cartController.js:93 | removing a product that is not in the cart leaves the cart unchanged (and does not fail) |
| Cart.RemoveIdempotent | Backend/controllers/cartController.js:93 | removing twice gives the same cart as removing once |
| Cart.RemoveKeepsDistinct | Backend/controllers/cartController.js:93 | removing keeps a duplicate-free cart duplicate-free |
| Cart.ClearedCartOfIdempotent | Backend/controllers/cartController.js:113 | clearing a cart twice gives the same users as clearing it once |
| CartController.GetCart | Backend/controllers/cartController.js:6-22 | succeeds exactly when the user exists, with the stored cart; otherwise an unhandled "User not found" |
| CartController.AddToCart | Backend/controllers/cartController.js:27-53 | unknown user: 404 "User not found" and no change; otherwise only this user's cart changes, to the addToCart result, which is returned |
| CartController.UpdateCart | Backend/controllers/cartController.js:58-80 | unknown user: 404 "User not found"; product not in the cart: 404 "Product not found in cart"; neither changes anything. Otherwise only this user's cart changes, to the update result, which is returned |
| CartController.RemoveFromCart | Backend/controllers/cartController.js:85-102 | unknown user: 404 and no change; otherwise only this user's cart changes, to the filtered cart, which is returned |
| CartController.ClearCart | Backend/controllers/cartController.js:107-120 | unknown user: 404 and no change; otherwise only this user's cart is emptied, and the reply is the success message with an empty cart |
| Orders.Rejected | Backend/controllers/orderController.js:22 | no contract of its own (the guard: a present, empty item list); used by OrderController.AddOrderItems and Orders.AbsentItemsAccepted |
| Orders.NewOrder | Backend/controllers/orderController.js:28-37 | no contract of its own (the new order record); its meaning is stated by Orders.NewOrderStoresRequest and Orders.AbsentItemsAccepted |
| Orders.MarkPaid | Backend/controllers/orderController.js:87-94 | no contract of its own (the paid transition); its meaning is stated by Orders.MarkPaidEffect, Orders.MarkPaidLastWins and Orders.MarkPaidKeepsView |
| Orders.MayView | Backend/controllers/orderController.js:67 | no contract of its own (owner or admin); used by OrderController.GetOrderById, whose contract and the lemmas OrderController.NonAdminSeesOnlyOwnOrders and OrderController.AdminSeesEveryOrder state its meaning |
| Orders.DecrementOne | Backend/controllers/orderController.js:109-112 | no contract of its own (one loop step: subtract the line's qty when the product exists); its meaning is stated through Orders.Decremented by Orders.DecrementedStock |
| Orders.Decremented | Backend/controllers/orderController.js:108-114 | no contract of its own (the loop's result, which OrderController.UpdateOrderToPaid's loop invariant tracks); its meaning is stated by Orders.DecrementedStock, Orders.UnnamedProductUnchanged, Orders.StockCanGoNegative and Orders.PayTwiceDecrementsTwice |
| Orders.QtySum | Backend/controllers/orderController.js:108-114 | no contract of its own (the reference definition: total qty of the lines naming a product); Orders.DecrementedStock relates it to the loop and Orders.QtySumUnnamed states its zero case |
| Orders.NewOrderStoresRequest | Backend/controllers/orderController.js:28-37 | a created order belongs to the requester; its items, address, payment method and four price fields are as supplied; a supplied list is non-empty; it starts unpaid with no payment result |
| Orders.AbsentItemsAccepted | Backend/controllers/orderController.js:22-25 | an absent item list is not rejected by the guard and gives an order with no lines |
| Orders.MarkPaidEffect | Backend/controllers/orderController.js:86-94 | after pay, `isPaid` is true, `paymentResult` equals the supplied details and `paidAt` is the clock reading; owner, items, prices, address and payment method are unchanged |
| Orders.MarkPaidLastWins | Backend/controllers/orderController.js:86-94 | no paid-already guard: a second pay overwrites `paidAt` and `paymentResult`, so the last pay wins; a repeat with another clock reading or other payment details gives a different record |
| Orders.MarkPaidKeepsView | Backend/controllers/orderController.js:86-94 | paying does not change who may read the order |
| Orders.DecrementedStock | Backend/controllers/orderController.js:108-114 | the stock loop keeps the same set of products; each product's count drops by the total quantity of the lines naming it |
| Orders.QtySumUnnamed | Backend/controllers/orderController.js:108-114 | a product that no line names has a total ordered quantity of zero |
| Orders.UnnamedProductUnchanged | Backend/controllers/orderController.js:108-114 | a product that no line names keeps its count; a missing product is not created |
| Orders.StockCanGoNegative | Backend/controllers/orderController.js:111 | no floor: when more is ordered than is in stock, the count becomes negative |
| Orders.PayTwiceDecrementsTwice | Backend/controllers/orderController.js:82-114 | running the stock loop twice for the same order takes twice the ordered quantity off each product |
| OrderController.AddOrderItems | Backend/controllers/orderController.js:11-54 | a present, empty item list gives 400 "No order items" and creates nothing. Otherwise the new order is inserted under the new id and nothing else changes. The reply carries the id and client secret, or the processor's error when it fails (the order stays saved) |
| OrderController.GetOrderById | Backend/controllers/orderController.js:59-77 | returns the stored order exactly when it exists and the requester owns it or is an admin; otherwise 403 "Not authorized to view this order", or 404 "Order not found" when it does not exist |
| OrderController.GetMyOrders | Backend/controllers/orderController.js:126-129 | returns exactly the stored orders whose user is the requester, keyed by order id (the reply's array order is not modelled) |
| OrderController.UpdateOrderToPaid | Backend/controllers/orderController.js:82-121 | missing order: 404 "Order not found", and no order, user or product changes. Otherwise that order is marked paid and returned; the requester's cart is emptied, whoever owns the order; stock is decremented per line for existing products |
| OrderController.NonAdminSeesOnlyOwnOrders | Backend/controllers/orderController.js:65-72 | a non-admin can read an order exactly when it is in their own order list |
| OrderController.AdminSeesEveryOrder | Backend/controllers/orderController.js:67 | an admin can read exactly the orders that exist |
| OrderController.CreateAddsToOwnList | Backend/controllers/orderController.js:28-39 | creating an order adds it to the requester's order list and to no other user's |
| OrderController.PayKeepsListMembership | Backend/controllers/orderController.js:86-96 | paying an order leaves every user's order list with the same order ids |

## Left out

- The payment processor call. Creating the payment intent, including the `Math.round(totalPrice * 100)` cents amount, the currency and the metadata, is a network call. It is a parameter `IntentOutcome`: a client secret, or an error message.
- Price fields, shipping address and payment method are opaque values copied verbatim. No arithmetic on prices is modelled.
- The clock (`Date.now()` for `paidAt`) is a parameter of the pay handler.
- Order ids come from the database. `AddOrderItems` takes the new id as a parameter and requires that it is unused.
- `.populate(...)` joins are not modelled. As a result, one failure is not modelled: `getOrderById` fails with an unhandled error when the order's user document no longer exists.
- `toString()` id comparisons are not modelled. Ids are opaque types compared by equality. The cart handlers compare a stored id's string form with the raw request value. So an id spelled differently (upper-case hex, say) matches no line: addToCart then appends a duplicate line, updateCart reports "Product not found in cart", and removeFromCart removes nothing. These properties hold only under the equality abstraction: Cart.Remove's promise that no line for the product is left; Cart.UpsertOverwrites and Cart.UpsertThenFind, since a second line is pushed and the first keeps its old quantity; Cart.UpsertKeepsDistinct; and Cart.UpdateFailsIffAbsent, since the update fails although the product is present.
- The status of a payment processor failure is not modelled. `AddOrderItems` returns every processor failure as `Fail(Unhandled, message)`, but the processor's error may carry its own HTTP status.
- OrderController.GetMyOrders: returns a map keyed by order id; the order of the reply's array is not modelled (the database leaves it unspecified).
- The User, Product and Order schemas are not part of this model. The model assumes two things about them. An absent `orderItems` is stored as an empty list, which is Mongoose's default for array fields. A new order starts with `isPaid` false and no `paidAt` or `paymentResult`.
- Schema validation and casting errors are not modelled.
- Cart quantities, order-line quantities and stock counts are modelled as unbounded integers. The source holds them as JavaScript numbers, which are doubles. So `countInStock -= item.qty` is exact only for integers below 2^53, and a fractional quantity is accepted and stored; neither is modelled.
- Product documents are reduced to `countInStock`. User documents are reduced to the cart plus an opaque profile.
- Concurrency is not modelled. Each handler is one sequential step, and the separate `save()` calls cannot interleave with other requests. So the model makes no atomicity claims.
- I/O is not modelled: the HTTP plumbing (`res.status`, `res.json`) and the success status codes 200 and 201.
- The server bootstrap and the chat proxy are not part of this model. The mock route files and the product controller are not part of it either, because they only look values up.

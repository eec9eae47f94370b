# E-commerce order and payment core, in Dafny

This project models the service layer of a small shop backend: a product catalogue with stock
counters, per-user carts, orders placed from a cart, and one mock payment per order that the
payment gateway settles by a success or a failure notice, relayed through a webhook endpoint.

The four services are classes that hold references to their collections. Each service operation
is a method that states its whole effect on the collections it may modify. Each collection is a
map from generated ids to records, with a counter that supplies fresh ids.

The loops of the services are modelled as loops, each proved against value-level functions:

- the stock check and deduction of order creation (`DeductLines`), against `OrderBuilder.Checkout`,
  which builds the frozen order lines, and `Inventory.Shift`, which applies a run of stock updates;
- the stock return of cancellation (`ReturnStock`), against `Inventory.Shift` and
  `Inventory.MissingProduct`, which finds the first line whose product is gone;
- the transaction's undo of stock updates already made (`Restock`), against `Inventory.Shift`;
- the cart listing (`GetCartItems`), against the cart collection's `FindByUserId` and the
  `Describes` predicate relating each response to its cart line.

The two settlement handlers have no loop. `Payments.Settle` is their value-level meaning: the
state a gateway notice leads to, or the failure it reports.

The properties the shop relies on are proved about those functions:

- what makes an order go through;
- the order total;
- exactly which stock moves;
- that cancellation undoes creation;
- that a replayed or reversed gateway notice lands on a predictable state.

Files:

- `Domain.dfy`: records, statuses, the failures the services report, `Option` and `Result`.
- `Collections.dfy`: listing and first-match lookup over an id-keyed map, in insertion (ascending id) order.
- `Repositories.dfy`: the product, cart, order and payment collections and their derived queries.
- `Inventory.dfy`: stock updates and runs of them.
- `OrderBuilder.dfy`: the meaning of the order-creation loop and its properties.
- `Products.dfy`, `Carts.dfy`, `Orders.dfy`, `Payments.dfy`: the four services.
- `Webhooks.dfy`: the webhook endpoint.

Order creation and cancellation, the status update, the cart's add and clear, payment creation and
the two settlement handlers are transactional; every other operation makes at most one write. The
model treats each operation as one atomic step and writes the transaction's effect out explicitly:

- A failed order creation gives back the stock it had already deducted.
- A failed cancellation takes back the stock it had already returned.
- A settlement whose order is gone restores the payment it had already marked.

The records (products, cart lines, orders, order lines, payments) are modelled in `Domain.dfy` and
the product collection in `Repositories.dfy`. The records' fields and the product collection's
queries are those the services read and write.

## Model

| member | source | states |
|---|---|---|
| `Collections.Select` | src/main/java/com/pushkar/ecommersepayment/repository/CartRepository.java:13 | a derived list query returns exactly the stored records that match, and none when nothing matches |
| `Collections.SelectAscending` | src/main/java/com/pushkar/ecommersepayment/repository/OrderRepository.java:12 | a list query returns records in strictly ascending id (insertion) order |
| `Collections.FirstKey` | src/main/java/com/pushkar/ecommersepayment/repository/PaymentRepository.java:16 | a single-result query finds the first matching record, and reports none exactly when no record matches |
| `Collections.FirstKeyUpdate` | src/main/java/com/pushkar/ecommersepayment/service/PaymentService.java:109-111 | saving a record without changing the queried field leaves the query's answer unchanged |
| `Repositories.ProductRepository.Insert` | src/main/java/com/pushkar/ecommersepayment/service/ProductService.java:20-23 | a new product is stored under a fresh id, and nothing else changes |
| `Repositories.ProductRepository.Save` | src/main/java/com/pushkar/ecommersepayment/service/ProductService.java:58-60 | saving overwrites the stored product with the same id |
| `Repositories.ProductRepository.DeleteById` | src/main/java/com/pushkar/ecommersepayment/service/ProductService.java:51-54 | deleting removes exactly that id |
| `Repositories.CartRepository.FindByUserId` | src/main/java/com/pushkar/ecommersepayment/repository/CartRepository.java:13 | the user's lines are exactly the stored lines with that user id |
| `Repositories.CartRepository.FindByUserIdAndProductId` | src/main/java/com/pushkar/ecommersepayment/repository/CartRepository.java:15 | the line for (user, product) is a stored one, and absent exactly when no stored line has that pair |
| `Repositories.CartRepository.Insert` | src/main/java/com/pushkar/ecommersepayment/service/CartService.java:52-57 | a new line gets a fresh id; the one-line-per-product invariant is kept |
| `Repositories.CartRepository.Save` | src/main/java/com/pushkar/ecommersepayment/service/CartService.java:50-51 | a merged line overwrites the stored line; the invariant is kept |
| `Repositories.CartRepository.DeleteByUserId` | src/main/java/com/pushkar/ecommersepayment/repository/CartRepository.java:17 | exactly the user's lines are removed |
| `Repositories.CartRepository.DeleteById` | src/main/java/com/pushkar/ecommersepayment/service/CartService.java:92-95 | exactly that line is removed |
| `Repositories.UserCartDistinct` | src/main/java/com/pushkar/ecommersepayment/service/CartService.java:39-57 | because adds merge into the existing line, a user's cart lists each product at most once, in ascending id order |
| `Repositories.OrderRepository.FindByUserId` | src/main/java/com/pushkar/ecommersepayment/repository/OrderRepository.java:12 | the user's orders are exactly the stored orders with that user id, each once, oldest (lowest id) first |
| `Repositories.OrderRepository.Insert` | src/main/java/com/pushkar/ecommersepayment/service/OrderService.java:67-74 | a new order is stored under a fresh id |
| `Repositories.OrderRepository.Save` | src/main/java/com/pushkar/ecommersepayment/service/OrderService.java:112-113 | saving overwrites the stored order with the same id |
| `Repositories.PaymentRepository.FindById` | src/main/java/com/pushkar/ecommersepayment/service/PaymentService.java:146 | lookup by id finds the stored payment exactly when the id is present |
| `Repositories.PaymentRepository.FindByOrderId` | src/main/java/com/pushkar/ecommersepayment/repository/PaymentRepository.java:12 | the order's payment, absent exactly when no payment names the order |
| `Repositories.PaymentRepository.FindByRazorpayOrderId` | src/main/java/com/pushkar/ecommersepayment/repository/PaymentRepository.java:16 | the payment with the gateway order reference, absent exactly when none carries it (always for a null reference) |
| `Repositories.PaymentRepository.Insert` | src/main/java/com/pushkar/ecommersepayment/service/PaymentService.java:59-68 | a new payment gets a fresh id; one payment per order and per gateway reference is kept |
| `Repositories.PaymentRepository.Save` | src/main/java/com/pushkar/ecommersepayment/service/PaymentService.java:109-111 | a settled payment overwrites the stored one, keeping its order and gateway reference |
| `Inventory.Adjust` | src/main/java/com/pushkar/ecommersepayment/service/ProductService.java:56-61 | one stock update moves only that product's counter, by the given amount, and keeps the set of products |
| `Inventory.AdjustUndo` | src/main/java/com/pushkar/ecommersepayment/service/ProductService.java:56-61 | updates of one product by opposite amounts cancel out |
| `Inventory.Shift` | src/main/java/com/pushkar/ecommersepayment/service/OrderService.java:127-129 | definition (no contract of its own): the catalogue after one updateStock per order line, in line order; its meaning is stated by ShiftAt, ShiftSnoc, ShiftPrefix and ShiftUndo |
| `Inventory.ShiftAt` | src/main/java/com/pushkar/ecommersepayment/service/OrderService.java:46-64 | a run of stock updates moves each counter by the net units its lines name, and nothing else |
| `Inventory.ShiftSnoc` | src/main/java/com/pushkar/ecommersepayment/service/OrderService.java:63 | one more loop iteration applies one more stock update |
| `Inventory.ShiftPrefix` | src/main/java/com/pushkar/ecommersepayment/service/OrderService.java:127-129 | the loop's prefix of updates extends by one update per iteration and keeps the products |
| `Inventory.ShiftUndo` | src/main/java/com/pushkar/ecommersepayment/service/OrderService.java:116-133 | giving back what a run took, or taking back what it gave, restores every counter |
| `Inventory.MissingProduct` | src/main/java/com/pushkar/ecommersepayment/service/OrderService.java:127-129 | the first order line whose product is gone, none exactly when every product exists |
| `Inventory.FirstMissing` | src/main/java/com/pushkar/ecommersepayment/service/OrderService.java:128 | the first line whose stock update fails is the one MissingProduct names |
| `OrderBuilder.ThenThen` | src/main/java/com/pushkar/ecommersepayment/service/OrderService.java:58 | helper for ResumeThen: appending built lines in two steps is appending them at once |
| `OrderBuilder.Checkout` | src/main/java/com/pushkar/ecommersepayment/service/OrderService.java:46-64 | definition (no contract of its own): the order-creation loop on values, each line checked against the stock the earlier lines left, frozen at the current price and deducted; its meaning is stated by CheckoutItems, CheckoutTotal, CheckoutSucceedsIff, CheckoutError and CheckoutDeducts |
| `OrderBuilder.CheckoutStep` | src/main/java/com/pushkar/ecommersepayment/service/OrderService.java:47-63 | one cart line either fails with its shortfall or is frozen at the current price and deducted |
| `OrderBuilder.ResumeThen` | src/main/java/com/pushkar/ecommersepayment/service/OrderService.java:46-64 | the loop resumed at any line, with the earlier lines frozen, ends as the checkout of the remaining lines after the frozen ones |
| `OrderBuilder.ResumeFromStart` | src/main/java/com/pushkar/ecommersepayment/service/OrderService.java:43-46 | the loop started at the first line with nothing frozen computes the checkout |
| `OrderBuilder.PlaceOrder` | src/main/java/com/pushkar/ecommersepayment/service/OrderService.java:37-64 | definition (no contract of its own): an empty cart is refused before any line is looked at, otherwise the checkout; its meaning is stated by Orders.OrderFromCartSucceedsIff and Orders.OrderFromCartLines |
| `OrderBuilder.Total` | src/main/java/com/pushkar/ecommersepayment/service/OrderService.java:44-60 | definition (no contract of its own): the running total, the sum of frozen price times quantity; its meaning is stated by TotalSnoc and CheckoutTotal |
| `OrderBuilder.LineCost` | src/main/java/com/pushkar/ecommersepayment/service/OrderService.java:60 | definition (no contract of its own): what the cart costs at the catalogue's current prices, against which CheckoutTotal and TotalOfFrozenLines state the order total |
| `OrderBuilder.TotalSnoc` | src/main/java/com/pushkar/ecommersepayment/service/OrderService.java:60 | each line adds price times quantity to the running total |
| `OrderBuilder.CheckoutItems` | src/main/java/com/pushkar/ecommersepayment/service/OrderService.java:54-58 | an order has one line per cart line, in cart order, with the cart quantity and the price at creation time |
| `OrderBuilder.TotalOfFrozenLines` | src/main/java/com/pushkar/ecommersepayment/service/OrderService.java:60 | lines frozen at catalogue prices total what the cart costs at those prices |
| `OrderBuilder.CheckoutTotal` | src/main/java/com/pushkar/ecommersepayment/service/OrderService.java:60 | the order total is the sum of price times quantity over the cart |
| `OrderBuilder.CheckoutSucceedsIff` | src/main/java/com/pushkar/ecommersepayment/service/OrderService.java:46-52 | with one line per product, the checkout succeeds exactly when every product exists with enough stock |
| `OrderBuilder.CheckoutError` | src/main/java/com/pushkar/ecommersepayment/service/OrderService.java:47-51 | a failed checkout reports the first line that cannot be served: product not found, or its name and available stock |
| `OrderBuilder.UnitsOfDistinct` | src/main/java/com/pushkar/ecommersepayment/service/OrderService.java:63 | with distinct products, a product's deducted units are its line's quantity |
| `OrderBuilder.UnitsOfAbsent` | src/main/java/com/pushkar/ecommersepayment/service/OrderService.java:63 | a product no line names is not deducted |
| `OrderBuilder.CheckoutDeducts` | src/main/java/com/pushkar/ecommersepayment/service/OrderService.java:63 | each line's product loses exactly the line's quantity; all other products and fields are untouched |
| `OrderBuilder.CheckoutKeepsStockNonNegative` | src/main/java/com/pushkar/ecommersepayment/service/OrderService.java:49-63 | checking each line against the stock left by earlier lines keeps every counter non-negative |
| `OrderBuilder.CancelUndoesCheckout` | src/main/java/com/pushkar/ecommersepayment/service/OrderService.java:116-133 | cancelling a just-created order finds every product and restores all stock |
| `OrderBuilder.ExampleOrder` | src/test/java/com/pushkar/ecommersepayment/integration/EcommerceIntegrationTest.java:195-237 | 2 laptops at 50000 and 5 mice at 1000 total 105000; stock goes 10 to 8 and 50 to 45 |
| `Products.ProductService.CreateProduct` | src/main/java/com/pushkar/ecommersepayment/service/ProductService.java:20-23 | a created product gets a fresh id and is stored |
| `Products.ProductService.GetProductById` | src/main/java/com/pushkar/ecommersepayment/service/ProductService.java:30-34 | the stored product, or "product not found" exactly when the id is absent |
| `Products.ProductService.UpdateProduct` | src/main/java/com/pushkar/ecommersepayment/service/ProductService.java:41-49 | overwrites name, description, price and stock, keeps the id; a missing product is reported and nothing changes |
| `Products.ProductService.DeleteProduct` | src/main/java/com/pushkar/ecommersepayment/service/ProductService.java:51-54 | removes exactly that product |
| `Products.ProductService.UpdateStock` | src/main/java/com/pushkar/ecommersepayment/service/ProductService.java:56-61 | moves only that counter by the amount; succeeds exactly when the product exists, else nothing changes |
| `Carts.CartService.AddToCart` | src/main/java/com/pushkar/ecommersepayment/service/CartService.java:27-59 | all error cases; a merge when a line exists, an insert otherwise; the stock check covers the merged quantity; a failed add changes nothing; afterwards the lookup finds the new line |
| `Carts.CartService.GetCartItems` | src/main/java/com/pushkar/ecommersepayment/service/CartService.java:61-84 | one response per cart line, in cart order, copying the line; the product is present exactly when it is still in the catalogue |
| `Carts.CartService.ClearCart` | src/main/java/com/pushkar/ecommersepayment/service/CartService.java:86-90 | exactly the user's lines are removed, so the user's cart is empty |
| `Carts.CartService.RemoveCartItem` | src/main/java/com/pushkar/ecommersepayment/service/CartService.java:92-95 | exactly that line is removed |
| `Carts.OnlyLineFor` | src/main/java/com/pushkar/ecommersepayment/service/CartService.java:39-51 | a stored line for (user, product) is the one the lookup returns |
| `Payments.Mark` | src/main/java/com/pushkar/ecommersepayment/service/PaymentService.java:109-110 | a capture sets SUCCESS and the gateway payment reference; a decline sets FAILED only; no other field changes |
| `Payments.Settle` | src/main/java/com/pushkar/ecommersepayment/service/PaymentService.java:102-139 | a notice fails with "payment not found" exactly when no payment carries the reference; success keeps the set of payments and orders |
| `Payments.SettleEffect` | src/main/java/com/pushkar/ecommersepayment/service/PaymentService.java:106-117 | a settlement changes exactly the matching payment and exactly its own order |
| `Payments.LastSettlementWins` | src/main/java/com/pushkar/ecommersepayment/service/PaymentService.java:102-139 | with no status check, a second notice overrides the first: statuses follow the later notice |
| `Payments.SettleIdempotent` | src/main/java/com/pushkar/ecommersepayment/service/PaymentService.java:102-120 | replaying a notice changes nothing |
| `Payments.PaymentService.CreatePayment` | src/main/java/com/pushkar/ecommersepayment/service/PaymentService.java:37-77 | order not found, order not CREATED, payment exists, in that order; otherwise a PENDING payment with fresh references is stored; a failure changes nothing |
| `Payments.PaymentService.HandlePaymentSuccess` | src/main/java/com/pushkar/ecommersepayment/service/PaymentService.java:102-120 | the new state is Settle with a capture; any failure leaves payments and orders as they were |
| `Payments.PaymentService.HandlePaymentFailure` | src/main/java/com/pushkar/ecommersepayment/service/PaymentService.java:122-139 | the new state is Settle with a decline; any failure leaves payments and orders as they were |
| `Payments.PaymentService.GetPaymentByOrderId` | src/main/java/com/pushkar/ecommersepayment/service/PaymentService.java:141-143 | the order's stored payment, absent exactly when there is none |
| `Payments.PaymentService.GetPaymentById` | src/main/java/com/pushkar/ecommersepayment/service/PaymentService.java:145-148 | the stored payment, or "payment not found" exactly when the id is absent |
| `Orders.OrderService.Restock` | src/main/java/com/pushkar/ecommersepayment/service/OrderService.java:32 | the transaction's undo: one stock update per order line, in line order, in the given direction; the new catalogue is Shift of the old one (used by order creation's rollback and by cancellation's take-back) |
| `Orders.OrderService.Rollback` | src/main/java/com/pushkar/ecommersepayment/service/OrderService.java:32-33 | the transaction's undo of the deductions already made restores the catalogue |
| `Orders.OrderService.DeductLine` | src/main/java/com/pushkar/ecommersepayment/service/OrderService.java:47-63 | a line succeeds exactly when its product exists with enough stock; it then freezes the price and deducts the quantity, otherwise nothing changes |
| `Orders.OrderService.ServeLine` | src/main/java/com/pushkar/ecommersepayment/service/OrderService.java:47-63 | one iteration: a served line extends the frozen lines, deduction and total, and the loop resumes one line on; a line that cannot be served fails the checkout with its shortfall and all deductions are undone |
| `Orders.OrderService.DeductLines` | src/main/java/com/pushkar/ecommersepayment/service/OrderService.java:43-64 | the loop computes Checkout, the total and the deduction; on failure, stock is as before |
| `Orders.OrderService.CreateOrder` | src/main/java/com/pushkar/ecommersepayment/service/OrderService.java:32-81 | an empty cart or a line that cannot be served is refused and nothing changes; otherwise a CREATED order with the frozen lines and total is stored, stock deducted, cart emptied |
| `Orders.OrderService.GetOrderById` | src/main/java/com/pushkar/ecommersepayment/service/OrderService.java:83-100 | the order with its payment, the payment present exactly when one exists; "order not found" exactly when absent |
| `Orders.OrderService.GetOrdersByUserId` | src/main/java/com/pushkar/ecommersepayment/service/OrderService.java:102-105 | exactly the user's orders, each once, oldest (lowest id) first |
| `Orders.OrderService.UpdateOrderStatus` | src/main/java/com/pushkar/ecommersepayment/service/OrderService.java:107-114 | sets only the status of an existing order, with no transition check; a missing order is reported |
| `Orders.OrderService.ReturnLine` | src/main/java/com/pushkar/ecommersepayment/service/OrderService.java:128 | one iteration: the line's quantity goes back to its product; a deleted product is the first missing one, and all returns are undone |
| `Orders.OrderService.ReturnStock` | src/main/java/com/pushkar/ecommersepayment/service/OrderService.java:126-129 | gives every line's quantity back; a deleted product fails with its id and all stock is as before |
| `Orders.OrderService.CancelOrder` | src/main/java/com/pushkar/ecommersepayment/service/OrderService.java:116-133 | only a CREATED order is cancelled: stock comes back and the status becomes CANCELLED; every failure leaves stock and orders as they were |
| `Orders.OrderFromCartSucceedsIff` | src/main/java/com/pushkar/ecommersepayment/service/OrderService.java:37-64 | an order from a cart succeeds exactly when the cart is non-empty and every line is in stock; a refusal names the first failing line |
| `Orders.OrderFromCartLines` | src/main/java/com/pushkar/ecommersepayment/service/OrderService.java:46-64 | the order's lines mirror the cart at current prices, and its total is the cart's cost |
| `Orders.OrderFromCartStock` | src/main/java/com/pushkar/ecommersepayment/service/OrderService.java:46-64 | on a user's cart, a successful checkout lowers each line's product by the line's quantity and leaves every other product untouched |
| `Webhooks.StringField` | src/main/java/com/pushkar/ecommersepayment/client/PaymentServiceClient.java:32 | a field's string cast: a string, null for an absent or null field, or a failed cast for any other value |
| `Webhooks.SuccessFields` | src/main/java/com/pushkar/ecommersepayment/client/PaymentServiceClient.java:56-69 | the success helper calls the handler with the top-level paymentId and orderId casts, and makes no call exactly when one of the two casts fails |
| `Webhooks.FailureFields` | src/main/java/com/pushkar/ecommersepayment/client/PaymentServiceClient.java:71-84 | the failure helper calls the handler with the top-level orderId and reason casts, and makes no call exactly when one of the two casts fails |
| `Webhooks.Classify` | src/main/java/com/pushkar/ecommersepayment/client/PaymentServiceClient.java:24-84 | a missing or null event is a bad request; a non-string event is a 500; capture or paid calls the success handler with the payload's fields, a failed event calls the failure handler; any other event is ignored; no call is made on a handled event only when a cast that event's own helper performs fails |
| `Webhooks.FailureIgnoresPaymentId` | src/main/java/com/pushkar/ecommersepayment/client/PaymentServiceClient.java:42-43 | a failure notice with string orderId and reason calls the failure handler, whatever value the payload's paymentId has |
| `Webhooks.CaptureWithoutOrderId` | src/main/java/com/pushkar/ecommersepayment/client/PaymentServiceClient.java:56-69 | a capture without an order reference reaches the handler with a null reference, which fails and is swallowed, yet the notice is answered as processed |
| `Webhooks.PaymentServiceClient.HandlePaymentWebhook` | src/main/java/com/pushkar/ecommersepayment/client/PaymentServiceClient.java:24-84 | the reply is Classify's reply whatever the handler does; the state is the handler's settlement, or as before if it fails |

## Left out

- Persistence, MongoDB and Spring wiring: the collections are in-memory maps. Generated string ids are natural numbers from a counter; user ids and gateway references stay strings.
- Transactions are not modelled as such. Their effect on the paths shown is written out as explicit undo steps. On the failing paths of order creation, cancellation and settlement, this gives the same end state a rollback gives.
- The random gateway references of createPayment come in as parameters. A precondition says the order reference is not yet on file, because a random UUID does not repeat.
- The asynchronous payment simulation (its thread, delay and random outcome) and its configuration are left out. Its effect is one call to a notice handler, which is modelled.
- Timestamps (createdAt), logging and HTTP status codes other than the webhook's three replies are left out.
- Money is `int` in whole minor units. The source's double-precision prices and totals, and their rounding, are not modelled.
- Quantities and stock are unbounded `int`. Java's 32-bit wrap-around on very large quantities in addToCart and updateStock is not modelled.
- Orders.OrderService.UpdateOrderStatus: the status is one of the four known values. The source accepts any string.
- Products.ProductService.CreateProduct: always stores under a fresh id. The source's save would overwrite an existing product when the request carries its id.
- Payments.PaymentService.HandlePaymentSuccess: the signature argument is dropped, because the source never reads it.
- Webhooks.Classify: the payload is a flat map from keys to values that are strings, null or something else. Nested JSON is not looked into, because the endpoint never reads it.
- Listings and single-result lookups return records in ascending id order, which the model takes as insertion order. MongoDB's natural order for an unsorted query is not guaranteed to be that. The choice decides which failing line `createOrder` reports first, and which line a lookup returns if the one-line-per-product invariant were ever broken.
- getAllProducts and searchProducts (a case-insensitive substring search) are not modelled, because no core operation depends on them.
- The controllers, UserService, DataSeeder and request validation are outside the service core.
- Concurrent requests are not modelled. Every operation runs to completion alone, so two orders cannot race for the same stock.

/** Records kept by the shop's four collections, and the failures its services report. */
module Domain {

  /** User ids are chosen by clients; every other id is generated by the store. */
  type UserId = string
  type ProductId = nat
  type CartItemId = nat
  type OrderId = nat
  type PaymentId = nat

  datatype Option<T> = None | Some(value: T)

  /** A catalogue entry. Prices are whole minor currency units. */
  datatype Product = Product(id: ProductId, name: string, description: string, price: int, stock: int)

  /** One cart line: a user wants `quantity` units of a product. */
  datatype CartItem = CartItem(id: CartItemId, userId: UserId, productId: ProductId, quantity: int)

  /** One frozen order line: the product, the quantity and the unit price at ordering time. */
  datatype OrderItem = OrderItem(productId: ProductId, quantity: int, price: int)

  /** "CREATED", "PAID", "FAILED", "CANCELLED". */
  datatype OrderStatus = Created | Paid | Failed | Cancelled

  datatype Order = Order(id: OrderId, userId: UserId, totalAmount: int, status: OrderStatus, items: seq<OrderItem>)

  /** "PENDING", "SUCCESS", "FAILED". */
  datatype PaymentStatus = Pending | Success | Failure

  /** A payment record. `razorpayOrderId` is the gateway's order reference a settlement is
      addressed to; `paymentId` is the gateway's payment reference, which a settlement may clear. */
  datatype Payment = Payment(
    id: PaymentId,
    orderId: OrderId,
    amount: int,
    status: PaymentStatus,
    razorpayOrderId: string,
    paymentId: Option<string>)

  /** The runtime failures the services raise, one constructor per message. */
  datatype Error =
    | ProductNotFound(productId: ProductId)                      // "Product not found with id: …"
    | InsufficientStock(available: int)                          // "Insufficient stock. Available: …"
    | InsufficientStockFor(productName: string, available: int)  // "Insufficient stock for product: …"
    | CartEmpty                                                  // "Cart is empty"
    | OrderNotFound(orderId: OrderId)                            // "Order not found …"
    | CannotCancel(status: OrderStatus)                          // "Cannot cancel order with status: …"
    | OrderNotCreated(status: OrderStatus)                       // "Order is not in CREATED status …"
    | PaymentAlreadyExists                                       // "Payment already exists for this order"
    | PaymentNotFound(razorpayOrderId: Option<string>)           // "Payment not found for order: …"
    | PaymentIdNotFound(id: PaymentId)                           // "Payment not found with id: …"

  datatype Result<T> = Ok(value: T) | Err(error: Error)
}

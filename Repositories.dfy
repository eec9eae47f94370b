/** The four record collections the services use, as in-memory maps from generated ids to
    records, with the lookup-by-field queries the services call. Every collection keeps each
    record under its own id, below a counter that supplies the next fresh id; listings and
    single-result lookups follow ascending ids, the order in which the records were inserted. */
module Repositories {
  import opened Domain
  import opened Collections

  class ProductRepository {
    var products: map<ProductId, Product>
    var nextId: nat

    ghost predicate Valid()
      reads this
    {
      forall k :: k in products ==> products[k].id == k && k < nextId
    }

    constructor ()
      ensures Valid() && products == map[] && nextId == 0
    {
      products, nextId := map[], 0;
    }

    /** Saves a new product under a fresh id. */
    method Insert(product: Product) returns (saved: Product)
      requires Valid()
      modifies this
      ensures Valid()
      ensures saved == product.(id := old(nextId))
      ensures products == old(products)[saved.id := saved] && nextId == old(nextId) + 1
    {
      saved := product.(id := nextId);
      products, nextId := products[nextId := saved], nextId + 1;
    }

    /** Saves an existing product over its stored version. */
    method Save(product: Product)
      requires Valid() && product.id in products
      modifies this
      ensures Valid()
      ensures products == old(products)[product.id := product] && nextId == old(nextId)
    {
      products := products[product.id := product];
    }

    method DeleteById(id: ProductId)
      requires Valid()
      modifies this
      ensures Valid()
      ensures products == old(products) - {id} && nextId == old(nextId)
    {
      products := products - {id};
    }
  }

  /** The cart holds at most one line per (user, product). */
  ghost predicate OneLinePerProduct(lines: map<CartItemId, CartItem>) {
    forall a, b :: a in lines && b in lines && a != b ==>
      lines[a].userId != lines[b].userId || lines[a].productId != lines[b].productId
  }

  function CartOf(userId: UserId): CartItem -> bool {
    (x: CartItem) => x.userId == userId
  }

  function LineFor(userId: UserId, productId: ProductId): CartItem -> bool {
    (x: CartItem) => x.userId == userId && x.productId == productId
  }

  class CartRepository {
    var lines: map<CartItemId, CartItem>
    var nextId: nat

    ghost predicate Valid()
      reads this
    {
      && (forall k :: k in lines ==> lines[k].id == k && k < nextId)
      && OneLinePerProduct(lines)
    }

    constructor ()
      ensures Valid() && lines == map[] && nextId == 0
    {
      lines, nextId := map[], 0;
    }

    /** The user's cart lines, in the order they were added: exactly the stored lines of that user. */
    function FindByUserId(userId: UserId): (r: seq<CartItem>)
      reads this
      requires Valid()
      ensures forall i :: 0 <= i < |r| ==> r[i].userId == userId && r[i].id in lines && lines[r[i].id] == r[i]
      ensures forall k :: k in lines && lines[k].userId == userId ==> lines[k] in r
      ensures (forall k :: k in lines ==> lines[k].userId != userId) ==> r == []
    {
      Select(lines, CartOf(userId), nextId)
    }

    /** The user's line for the product, present exactly when such a line is stored. */
    function FindByUserIdAndProductId(userId: UserId, productId: ProductId): (r: Option<CartItem>)
      reads this
      requires Valid()
      ensures r.Some? ==> r.value.id in lines && lines[r.value.id] == r.value
                          && r.value.userId == userId && r.value.productId == productId
      ensures r.None? <==> forall k :: k in lines ==> !(lines[k].userId == userId && lines[k].productId == productId)
    {
      match FirstKey(lines, LineFor(userId, productId), 0, nextId)
      case None => None
      case Some(k) => Some(lines[k])
    }

    /** Saves a new line under a fresh id; the user has no line for that product yet. */
    method Insert(userId: UserId, productId: ProductId, quantity: int) returns (item: CartItem)
      requires Valid() && FindByUserIdAndProductId(userId, productId).None?
      modifies this
      ensures Valid()
      ensures item == CartItem(old(nextId), userId, productId, quantity)
      ensures lines == old(lines)[item.id := item] && nextId == old(nextId) + 1
    {
      item := CartItem(nextId, userId, productId, quantity);
      lines, nextId := lines[nextId := item], nextId + 1;
    }

    /** Saves an existing line over its stored version, keeping its user and product. */
    method Save(item: CartItem)
      requires Valid() && item.id in lines
      requires lines[item.id].userId == item.userId && lines[item.id].productId == item.productId
      modifies this
      ensures Valid()
      ensures lines == old(lines)[item.id := item] && nextId == old(nextId)
    {
      lines := lines[item.id := item];
    }

    method DeleteByUserId(userId: UserId)
      requires Valid()
      modifies this
      ensures Valid()
      ensures lines == map k | k in old(lines) && old(lines)[k].userId != userId :: old(lines)[k]
      ensures nextId == old(nextId)
    {
      lines := map k | k in lines && lines[k].userId != userId :: lines[k];
    }

    method DeleteById(id: CartItemId)
      requires Valid()
      modifies this
      ensures Valid()
      ensures lines == old(lines) - {id} && nextId == old(nextId)
    {
      lines := lines - {id};
    }
  }

  function CartItemKey(x: CartItem): nat {
    x.id
  }

  /** A user's cart lists each product at most once, lines in ascending id order. */
  lemma UserCartDistinct(carts: CartRepository, userId: UserId)
    requires carts.Valid()
    ensures var r := carts.FindByUserId(userId);
            forall i, j :: 0 <= i < j < |r| ==> r[i].id < r[j].id && r[i].productId != r[j].productId
  {
    SelectAscending(carts.lines, CartOf(userId), carts.nextId, CartItemKey);
  }

  function OrderKey(o: Order): nat {
    o.id
  }

  function PlacedBy(userId: UserId): Order -> bool {
    (o: Order) => o.userId == userId
  }

  class OrderRepository {
    var orders: map<OrderId, Order>
    var nextId: nat

    ghost predicate Valid()
      reads this
    {
      forall k :: k in orders ==> orders[k].id == k && k < nextId
    }

    constructor ()
      ensures Valid() && orders == map[] && nextId == 0
    {
      orders, nextId := map[], 0;
    }

    /** The user's orders, oldest first: exactly the stored orders of that user, each once, in
        ascending id order. */
    function FindByUserId(userId: UserId): (r: seq<Order>)
      reads this
      requires Valid()
      ensures forall i :: 0 <= i < |r| ==> r[i].userId == userId && r[i].id in orders && orders[r[i].id] == r[i]
      ensures forall k :: k in orders && orders[k].userId == userId ==> orders[k] in r
      ensures forall i, j :: 0 <= i < j < |r| ==> r[i].id < r[j].id
    {
      SelectAscending(orders, PlacedBy(userId), nextId, OrderKey);
      Select(orders, PlacedBy(userId), nextId)
    }

    /** Saves a new order under a fresh id. */
    method Insert(userId: UserId, totalAmount: int, status: OrderStatus, items: seq<OrderItem>) returns (order: Order)
      requires Valid()
      modifies this
      ensures Valid()
      ensures order == Order(old(nextId), userId, totalAmount, status, items)
      ensures orders == old(orders)[order.id := order] && nextId == old(nextId) + 1
    {
      order := Order(nextId, userId, totalAmount, status, items);
      orders, nextId := orders[nextId := order], nextId + 1;
    }

    /** Saves an existing order over its stored version. */
    method Save(order: Order)
      requires Valid() && order.id in orders
      modifies this
      ensures Valid()
      ensures orders == old(orders)[order.id := order] && nextId == old(nextId)
    {
      orders := orders[order.id := order];
    }
  }

  /** An order has at most one payment record, whatever its status, and no two payments share a
      gateway order reference (each is a freshly generated random identifier). */
  ghost predicate OnePaymentPerOrder(payments: map<PaymentId, Payment>) {
    forall a, b :: a in payments && b in payments && a != b ==>
      payments[a].orderId != payments[b].orderId && payments[a].razorpayOrderId != payments[b].razorpayOrderId
  }

  function ForOrder(orderId: OrderId): Payment -> bool {
    (p: Payment) => p.orderId == orderId
  }

  function WithGatewayOrder(razorpayOrderId: Option<string>): Payment -> bool {
    (p: Payment) => Some(p.razorpayOrderId) == razorpayOrderId
  }

  /** The id of the first payment carrying the gateway order reference; an absent reference matches none. */
  function GatewayLookup(payments: map<PaymentId, Payment>, hi: nat, razorpayOrderId: Option<string>): Option<PaymentId> {
    FirstKey(payments, WithGatewayOrder(razorpayOrderId), 0, hi)
  }

  class PaymentRepository {
    var payments: map<PaymentId, Payment>
    var nextId: nat

    ghost predicate Valid()
      reads this
    {
      && (forall k :: k in payments ==> payments[k].id == k && k < nextId)
      && OnePaymentPerOrder(payments)
    }

    constructor ()
      ensures Valid() && payments == map[] && nextId == 0
    {
      payments, nextId := map[], 0;
    }

    function FindById(id: PaymentId): (r: Option<Payment>)
      reads this
      ensures r.Some? <==> id in payments
      ensures r.Some? ==> r.value == payments[id]
    {
      if id in payments then Some(payments[id]) else None
    }

    /** The order's payment, present exactly when one is stored. */
    function FindByOrderId(orderId: OrderId): (r: Option<Payment>)
      reads this
      requires Valid()
      ensures r.Some? ==> r.value.id in payments && payments[r.value.id] == r.value && r.value.orderId == orderId
      ensures r.None? <==> forall k :: k in payments ==> payments[k].orderId != orderId
    {
      match FirstKey(payments, ForOrder(orderId), 0, nextId)
      case None => None
      case Some(k) => Some(payments[k])
    }

    /** The payment carrying the gateway order reference, present exactly when one is stored. */
    function FindByRazorpayOrderId(razorpayOrderId: Option<string>): (r: Option<Payment>)
      reads this
      requires Valid()
      ensures r.Some? ==> r.value.id in payments && payments[r.value.id] == r.value
                          && Some(r.value.razorpayOrderId) == razorpayOrderId
      ensures r.None? <==> forall k :: k in payments ==> Some(payments[k].razorpayOrderId) != razorpayOrderId
    {
      match GatewayLookup(payments, nextId, razorpayOrderId)
      case None => None
      case Some(k) => Some(payments[k])
    }

    /** Saves a new payment under a fresh id; the order has no payment yet and the gateway order
        reference is new. */
    method Insert(orderId: OrderId, amount: int, status: PaymentStatus, razorpayOrderId: string, paymentId: Option<string>)
      returns (payment: Payment)
      requires Valid() && FindByOrderId(orderId).None? && FindByRazorpayOrderId(Some(razorpayOrderId)).None?
      modifies this
      ensures Valid()
      ensures payment == Payment(old(nextId), orderId, amount, status, razorpayOrderId, paymentId)
      ensures payments == old(payments)[payment.id := payment] && nextId == old(nextId) + 1
    {
      payment := Payment(nextId, orderId, amount, status, razorpayOrderId, paymentId);
      payments, nextId := payments[nextId := payment], nextId + 1;
    }

    /** Saves an existing payment over its stored version, keeping its order and gateway order reference. */
    method Save(payment: Payment)
      requires Valid() && payment.id in payments
      requires payments[payment.id].orderId == payment.orderId
      requires payments[payment.id].razorpayOrderId == payment.razorpayOrderId
      modifies this
      ensures Valid()
      ensures payments == old(payments)[payment.id := payment] && nextId == old(nextId)
    {
      payments := payments[payment.id := payment];
    }
  }
}

/** The order service: turning a cart into an order with its stock deduction, cancelling an order
    with its stock return, and the order queries. Each public operation is one atomic step; where
    the source relies on the transaction to undo partial stock updates, the model undoes them
    explicitly. */
module Orders {
  import opened Domain
  import opened Inventory
  import opened OrderBuilder
  import opened Repositories
  import opened Products
  import opened Payments

  /** An order together with its payment, when it has one. */
  datatype OrderResponse = OrderResponse(order: Order, payment: Option<Payment>)

  class OrderService {
    const orders: OrderRepository
    const carts: CartRepository
    const productService: ProductService
    const paymentService: PaymentService

    ghost predicate Valid()
      reads this, orders, carts, productService, productService.repo,
            paymentService, paymentService.payments, paymentService.orders
    {
      && orders.Valid() && carts.Valid() && productService.Valid() && paymentService.Valid()
      && paymentService.orders == orders
    }

    constructor (orders: OrderRepository, carts: CartRepository, productService: ProductService, paymentService: PaymentService)
      requires orders.Valid() && carts.Valid() && productService.Valid() && paymentService.Valid()
      requires paymentService.orders == orders
      ensures this.orders == orders && this.carts == carts
      ensures this.productService == productService && this.paymentService == paymentService
      ensures Valid()
    {
      this.orders := orders;
      this.carts := carts;
      this.productService := productService;
      this.paymentService := paymentService;
    }

    /** One stock update per order line in the given direction: how the transaction undoes the
        updates already made by a failed operation. */
    method Restock(items: seq<OrderItem>, dir: Direction)
      requires productService.Valid()
      modifies productService.repo
      ensures productService.Valid() && productService.repo.nextId == old(productService.repo.nextId)
      ensures productService.repo.products == Shift(old(productService.repo.products), items, dir)
    {
      ghost var ps0 := productService.repo.products;
      var j := 0;
      while j < |items|
        invariant 0 <= j <= |items|
        invariant productService.Valid() && productService.repo.nextId == old(productService.repo.nextId)
        invariant productService.repo.products == Shift(ps0, items[..j], dir)
      {
        ShiftPrefix(ps0, items, j, dir);
        var _ := productService.UpdateStock(items[j].productId, Delta(items[j], dir));
        j := j + 1;
      }
      assert items[..j] == items;
    }

    /** Gives back the stock an interrupted order creation had already deducted. */
    method Rollback(ghost ps0: Catalog, items: seq<OrderItem>)
      requires productService.Valid() && productService.repo.products == Shift(ps0, items, Take)
      modifies productService.repo
      ensures productService.Valid() && productService.repo.nextId == old(productService.repo.nextId)
      ensures productService.repo.products == ps0
    {
      Restock(items, Give);
      ShiftUndo(ps0, items, Take);
    }

    /** One cart line of an order being placed: the product must exist with at least the line's
        quantity in stock; the line is then frozen at the product's current price and its quantity
        deducted. A line that cannot be served changes nothing. */
    method DeductLine(line: CartItem) returns (r: Result<OrderItem>)
      requires productService.Valid()
      modifies productService.repo
      ensures productService.Valid() && productService.repo.nextId == old(productService.repo.nextId)
      ensures r.Ok? <==> LineStocked(old(productService.repo.products), line)
      ensures r.Err? ==> r.error == Shortfall(old(productService.repo.products), line)
                         && productService.repo.products == old(productService.repo.products)
      ensures r.Ok? ==> r.value == OrderItem(line.productId, line.quantity, old(productService.repo.products)[line.productId].price)
                        && productService.repo.products == Adjust(old(productService.repo.products), line.productId, -line.quantity)
    {
      var product := productService.GetProductById(line.productId);
      if product.Err? {
        return Err(product.error);
      }
      if product.value.stock < line.quantity {
        return Err(InsufficientStockFor(product.value.name, product.value.stock));
      }
      var item := OrderItem(product.value.id, line.quantity, product.value.price);
      var _ := productService.UpdateStock(product.value.id, -line.quantity);
      r := Ok(item);
    }

    /** Serves line `i` of a checkout whose earlier lines were frozen as `items` and deducted: a
        served line extends the frozen lines, the deduction and the total; a line that cannot be
        served fails the checkout, and then the deductions already made are undone. */
    method ServeLine(ghost ps0: Catalog, lines: seq<CartItem>, i: nat, items: seq<OrderItem>) returns (r: Result<OrderItem>)
      requires i < |lines|
      requires productService.Valid() && productService.repo.products == Shift(ps0, items, Take)
      modifies productService.repo
      ensures productService.Valid() && productService.repo.nextId == old(productService.repo.nextId)
      ensures r.Err? ==> && Resume(old(productService.repo.products), lines, i, items) == Err(r.error)
                         && productService.repo.products == ps0
      ensures r.Ok? ==>
                && Resume(old(productService.repo.products), lines, i, items)
                   == Resume(productService.repo.products, lines, i + 1, items + [r.value])
                && productService.repo.products == Shift(ps0, items + [r.value], Take)
                && Total(items + [r.value]) == Total(items) + r.value.price * r.value.quantity
    {
      r := DeductLine(lines[i]);
      if r.Err? {
        Rollback(ps0, items);  // the transaction rolls the deductions back
      } else {
        ShiftSnoc(ps0, items, r.value, Take);
        TotalSnoc(items, r.value);
      }
    }

    /** The order lines built from the cart lines, in cart order, with their running total and the
        stock deductions they cause. Each line is checked against the stock left by the earlier
        lines; the first line that cannot be served stops the run, and then the deductions already
        made are undone. */
    method DeductLines(lines: seq<CartItem>) returns (r: Result<seq<OrderItem>>, totalAmount: int)
      requires productService.Valid()
      modifies productService.repo
      ensures productService.Valid() && productService.repo.nextId == old(productService.repo.nextId)
      ensures r == Checkout(old(productService.repo.products), lines)
      ensures r.Ok? ==> totalAmount == Total(r.value)
                        && productService.repo.products == Shift(old(productService.repo.products), r.value, Take)
      ensures r.Err? ==> productService.repo.products == old(productService.repo.products)
    {
      ghost var ps0 := productService.repo.products;
      ghost var goal := Checkout(ps0, lines);
      ResumeFromStart(ps0, lines);
      var items: seq<OrderItem> := [];
      totalAmount := 0;
      var i := 0;
      while i < |lines|
        invariant 0 <= i <= |lines|
        invariant productService.Valid() && productService.repo.nextId == old(productService.repo.nextId)
        invariant productService.repo.products == Shift(ps0, items, Take)
        invariant totalAmount == Total(items)
        invariant goal == Resume(productService.repo.products, lines, i, items)
      {
        var item := ServeLine(ps0, lines, i, items);
        if item.Err? {
          return Err(item.error), totalAmount;
        }
        items := items + [item.value];
        totalAmount := totalAmount + item.value.price * item.value.quantity;
        i := i + 1;
      }
      r := Ok(items);
    }

    /** Places an order for everything in the user's cart. An empty cart is refused; a line whose
        product is gone or short of stock fails the order, and then stock, orders and cart are as
        they were. A placed order is CREATED, carries the frozen lines and their total, the stock
        of its lines is deducted and the user's cart is emptied. */
    method CreateOrder(userId: UserId) returns (r: Result<Order>)
      requires Valid()
      modifies productService.repo, orders, carts
      ensures Valid()
      ensures productService.repo.nextId == old(productService.repo.nextId) && carts.nextId == old(carts.nextId)
      ensures var placed := PlaceOrder(old(productService.repo.products), old(carts.FindByUserId(userId)));
              && (placed.Err? ==>
                    && r == Err(placed.error)
                    && productService.repo.products == old(productService.repo.products)
                    && orders.orders == old(orders.orders) && orders.nextId == old(orders.nextId)
                    && carts.lines == old(carts.lines))
              && (placed.Ok? ==>
                    && r == Ok(Order(old(orders.nextId), userId, Total(placed.value), Created, placed.value))
                    && r.value.id !in old(orders.orders)
                    && orders.orders == old(orders.orders)[r.value.id := r.value]
                    && orders.nextId == old(orders.nextId) + 1
                    && productService.repo.products == Shift(old(productService.repo.products), placed.value, Take)
                    && carts.lines == map k | k in old(carts.lines) && old(carts.lines)[k].userId != userId :: old(carts.lines)[k])
    {
      var lines := carts.FindByUserId(userId);
      if |lines| == 0 {
        return Err(CartEmpty);
      }
      var items, totalAmount := DeductLines(lines);
      if items.Err? {
        return Err(items.error);
      }
      var order := orders.Insert(userId, totalAmount, Created, items.value);
      carts.DeleteByUserId(userId);
      r := Ok(order);
    }

    /** The order with its payment, when it has one, or "order not found". */
    function GetOrderById(orderId: OrderId): (r: Result<OrderResponse>)
      reads this, orders, paymentService, paymentService.payments
      requires orders.Valid() && paymentService.payments.Valid()
      ensures r.Ok? <==> orderId in orders.orders
      ensures r.Err? ==> r.error == OrderNotFound(orderId)
      ensures r.Ok? ==> && r.value.order == orders.orders[orderId]
                        && (r.value.payment.Some? ==>
                              && r.value.payment.value.id in paymentService.payments.payments
                              && paymentService.payments.payments[r.value.payment.value.id] == r.value.payment.value
                              && r.value.payment.value.orderId == orderId)
                        && (r.value.payment.None? <==>
                              forall k :: k in paymentService.payments.payments ==>
                                paymentService.payments.payments[k].orderId != orderId)
    {
      if orderId !in orders.orders then Err(OrderNotFound(orderId))
      else Ok(OrderResponse(orders.orders[orderId], paymentService.GetPaymentByOrderId(orderId)))
    }

    /** The user's orders, oldest first: all of them, each once, and nobody else's. */
    function GetOrdersByUserId(userId: UserId): (r: seq<Order>)
      reads this, orders
      requires orders.Valid()
      ensures forall i :: 0 <= i < |r| ==> r[i].userId == userId && r[i].id in orders.orders && orders.orders[r[i].id] == r[i]
      ensures forall k :: k in orders.orders && orders.orders[k].userId == userId ==> orders.orders[k] in r
      ensures forall i, j :: 0 <= i < j < |r| ==> r[i].id < r[j].id
    {
      orders.FindByUserId(userId)
    }

    /** Sets the status of an existing order and nothing else; a missing order is reported. */
    method UpdateOrderStatus(orderId: OrderId, status: OrderStatus) returns (r: Result<()>)
      requires Valid()
      modifies orders
      ensures Valid() && orders.nextId == old(orders.nextId)
      ensures orderId !in old(orders.orders) ==> r == Err(OrderNotFound(orderId)) && orders.orders == old(orders.orders)
      ensures orderId in old(orders.orders) ==>
                r == Ok(()) && orders.orders == old(orders.orders)[orderId := old(orders.orders)[orderId].(status := status)]
    {
      if orderId !in orders.orders {
        return Err(OrderNotFound(orderId));
      }
      var order := orders.orders[orderId];
      orders.Save(order.(status := status));
      r := Ok(());
    }

    /** Gives line `j`'s quantity back to its product, after the lines before `j` were given back.
        A product that has been deleted fails the run, and then the returns already made are
        undone. */
    method ReturnLine(ghost ps0: Catalog, items: seq<OrderItem>, j: nat) returns (r: Result<()>)
      requires j < |items|
      requires productService.Valid() && productService.repo.products == Shift(ps0, items[..j], Give)
      requires forall k :: 0 <= k < j ==> items[k].productId in ps0
      modifies productService.repo
      ensures productService.Valid() && productService.repo.nextId == old(productService.repo.nextId)
      ensures r.Err? ==> && MissingProduct(ps0, items) == Some(items[j].productId)
                         && r == Err(ProductNotFound(items[j].productId))
                         && productService.repo.products == ps0
      ensures r.Ok? ==> items[j].productId in ps0 && productService.repo.products == Shift(ps0, items[..j + 1], Give)
    {
      ShiftPrefix(ps0, items, j, Give);
      r := productService.UpdateStock(items[j].productId, items[j].quantity);
      if r.Err? {
        FirstMissing(ps0, items, j);
        Restock(items[..j], Take);  // the transaction rolls the returns back
        ShiftUndo(ps0, items[..j], Give);
      }
    }

    /** Gives every line's quantity back to its product, in line order. A line whose product has
        been deleted stops the run with "product not found", and then the returns already made are
        undone. */
    method ReturnStock(items: seq<OrderItem>) returns (r: Result<()>)
      requires productService.Valid()
      modifies productService.repo
      ensures productService.Valid() && productService.repo.nextId == old(productService.repo.nextId)
      ensures var missing := MissingProduct(old(productService.repo.products), items);
              && (missing.Some? ==> r == Err(ProductNotFound(missing.value))
                                    && productService.repo.products == old(productService.repo.products))
              && (missing.None? ==> r == Ok(())
                                    && productService.repo.products == Shift(old(productService.repo.products), items, Give))
    {
      ghost var ps0 := productService.repo.products;
      var j := 0;
      while j < |items|
        invariant 0 <= j <= |items|
        invariant productService.Valid() && productService.repo.nextId == old(productService.repo.nextId)
        invariant productService.repo.products == Shift(ps0, items[..j], Give)
        invariant forall k :: 0 <= k < j ==> items[k].productId in ps0
      {
        r := ReturnLine(ps0, items, j);
        if r.Err? {
          return;
        }
        j := j + 1;
      }
      assert items[..j] == items;
      r := Ok(());
    }

    /** Cancels a CREATED order: every line's quantity goes back to its product and the order
        becomes CANCELLED. A missing order, an order in any other status, and a line whose product
        has been deleted are reported, and then stock and orders are as they were. */
    method CancelOrder(orderId: OrderId) returns (r: Result<()>)
      requires Valid()
      modifies productService.repo, orders
      ensures Valid()
      ensures productService.repo.nextId == old(productService.repo.nextId) && orders.nextId == old(orders.nextId)
      ensures orderId !in old(orders.orders) ==> r == Err(OrderNotFound(orderId))
      ensures orderId in old(orders.orders) && old(orders.orders)[orderId].status != Created ==>
                r == Err(CannotCancel(old(orders.orders)[orderId].status))
      ensures orderId in old(orders.orders) && old(orders.orders)[orderId].status == Created ==>
                var order := old(orders.orders)[orderId];
                var missing := MissingProduct(old(productService.repo.products), order.items);
                && (missing.Some? ==> r == Err(ProductNotFound(missing.value)))
                && (missing.None? ==>
                      && r == Ok(())
                      && productService.repo.products == Shift(old(productService.repo.products), order.items, Give)
                      && orders.orders == old(orders.orders)[orderId := order.(status := Cancelled)])
      ensures r.Err? ==> productService.repo.products == old(productService.repo.products)
                         && orders.orders == old(orders.orders)
    {
      if orderId !in orders.orders {
        return Err(OrderNotFound(orderId));
      }
      var order := orders.orders[orderId];
      if order.status != Created {
        return Err(CannotCancel(order.status));
      }
      r := ReturnStock(order.items);
      if r.Ok? {
        orders.Save(order.(status := Cancelled));
      }
    }
  }

  /** Order creation on a user's cart succeeds exactly when the cart is non-empty and every
      line's product exists with enough stock (the cart holds one line per product, so no line
      eats into another's stock); a refusal names the first line that cannot be served. */
  lemma OrderFromCartSucceedsIff(carts: CartRepository, ps: Catalog, userId: UserId)
    requires carts.Valid()
    ensures var lines := carts.FindByUserId(userId);
            var placed := PlaceOrder(ps, lines);
            && (placed.Ok? <==> |lines| > 0 && Stocked(ps, lines))
            && (|lines| > 0 && placed.Err? ==>
                  exists i :: 0 <= i < |lines| && !LineStocked(ps, lines[i])
                    && (forall j :: 0 <= j < i ==> LineStocked(ps, lines[j]))
                    && placed.error == Shortfall(ps, lines[i]))
  {
    var lines := carts.FindByUserId(userId);
    UserCartDistinct(carts, userId);
    assert DistinctProducts(lines);
    CheckoutSucceedsIff(ps, lines);
    CheckoutError(ps, lines);
  }

  /** A placed order has one line per cart line, in cart order, carrying the product, the cart
      quantity and the current price, and its total is the cost of the cart at current prices. */
  lemma OrderFromCartLines(carts: CartRepository, ps: Catalog, userId: UserId)
    requires carts.Valid()
    ensures var lines := carts.FindByUserId(userId);
            var placed := PlaceOrder(ps, lines);
            placed.Ok? ==>
              && |placed.value| == |lines|
              && (forall i :: 0 <= i < |lines| ==>
                    lines[i].productId in ps
                    && placed.value[i] == OrderItem(lines[i].productId, lines[i].quantity, ps[lines[i].productId].price))
              && Total(placed.value) == LineCost(ps, lines)
  {
    var lines := carts.FindByUserId(userId);
    CheckoutItems(ps, lines);
    CheckoutTotal(ps, lines);
  }

  /** Placing an order lowers each cart line's product by the line's quantity and leaves every
      other product untouched (on an empty cart the order is refused before the checkout). */
  lemma OrderFromCartStock(carts: CartRepository, ps: Catalog, userId: UserId)
    requires carts.Valid()
    ensures var lines := carts.FindByUserId(userId);
            Checkout(ps, lines).Ok? ==>
              var after := Shift(ps, Checkout(ps, lines).value, Take);
              && after.Keys == ps.Keys
              && (forall i :: 0 <= i < |lines| ==>
                    lines[i].productId in ps
                    && after[lines[i].productId] == ps[lines[i].productId].(stock := ps[lines[i].productId].stock - lines[i].quantity))
              && (forall id :: id in ps && (forall i :: 0 <= i < |lines| ==> lines[i].productId != id) ==> after[id] == ps[id])
  {
    UserCartDistinct(carts, userId);
    CheckoutDeducts(ps, carts.FindByUserId(userId));
  }
}

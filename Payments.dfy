/** The payment tracker: one payment per order, opened while the order is CREATED and settled by
    the gateway's success or failure notice, which also settles the order. */
module Payments {
  import opened Domain
  import opened Collections
  import opened Repositories

  /** How the gateway settled a payment: captured under a gateway payment reference (which a
      notice may leave out), or declined. */
  datatype Outcome = Captured(gatewayPaymentId: Option<string>) | Declined {
    function PaymentStatus(): PaymentStatus {
      if Captured? then Success else Failure
    }
    function OrderStatus(): OrderStatus {
      if Captured? then Paid else Failed
    }
  }

  /** The payment record after a settlement: a capture records the gateway payment reference (an
      absent one clears it) and marks SUCCESS; a decline only marks FAILED. */
  function Mark(p: Payment, outcome: Outcome): (r: Payment)
    ensures r.status == outcome.PaymentStatus()
    ensures r.paymentId == (if outcome.Captured? then outcome.gatewayPaymentId else p.paymentId)
    ensures r.(status := p.status, paymentId := p.paymentId) == p
  {
    match outcome
    case Captured(gatewayPaymentId) => p.(paymentId := gatewayPaymentId, status := Success)
    case Declined => p.(status := Failure)
  }

  /** The stored payments and orders, as a settlement sees them. */
  datatype Ledger = Ledger(payments: map<PaymentId, Payment>, orders: map<OrderId, Order>)

  /** A settlement notice for a gateway order reference, applied to the ledger whose payment ids lie
      below `hi`. It fails when no payment carries the reference, and when the payment's order is gone,
      in which case the payment update is rolled back with it; otherwise it marks the payment and
      moves its order to PAID or FAILED, whatever either's current status. */
  function Settle(l: Ledger, hi: nat, razorpayOrderId: Option<string>, outcome: Outcome): (r: Result<Ledger>)
    ensures r == Err(PaymentNotFound(razorpayOrderId)) <==>
              forall k :: k in l.payments && k < hi ==> Some(l.payments[k].razorpayOrderId) != razorpayOrderId
    ensures r.Ok? ==> r.value.payments.Keys == l.payments.Keys && r.value.orders.Keys == l.orders.Keys
  {
    match GatewayLookup(l.payments, hi, razorpayOrderId)
    case None => Err(PaymentNotFound(razorpayOrderId))
    case Some(k) =>
      var p := l.payments[k];
      if p.orderId !in l.orders then Err(OrderNotFound(p.orderId))
      else
        var order := l.orders[p.orderId];
        Ok(Ledger(l.payments[k := Mark(p, outcome)], l.orders[p.orderId := order.(status := outcome.OrderStatus())]))
  }

  /** A successful settlement changes exactly one payment, the one carrying the reference, and
      exactly one order, the payment's own. */
  lemma SettleEffect(l: Ledger, hi: nat, razorpayOrderId: Option<string>, outcome: Outcome)
    requires Settle(l, hi, razorpayOrderId, outcome).Ok?
    ensures var after := Settle(l, hi, razorpayOrderId, outcome).value;
            exists k :: k in l.payments && k < hi
              && Some(l.payments[k].razorpayOrderId) == razorpayOrderId
              && after.payments[k] == Mark(l.payments[k], outcome)
              && l.payments[k].orderId in l.orders
              && after.orders[l.payments[k].orderId] == l.orders[l.payments[k].orderId].(status := outcome.OrderStatus())
              && (forall j :: j in l.payments && j != k ==> after.payments[j] == l.payments[j])
              && (forall o :: o in l.orders && o != l.payments[k].orderId ==> after.orders[o] == l.orders[o])
  {
  }

  /** Neither handler looks at current statuses, so a second notice for the same reference finds
      the same payment and the later notice decides both statuses. A later capture, or anything
      after a decline, leaves the ledger exactly as that later notice alone would have; a decline
      after a capture differs from a lone decline only in keeping the captured payment reference. */
  lemma {:induction false} LastSettlementWins(l: Ledger, hi: nat, razorpayOrderId: Option<string>, first: Outcome, second: Outcome)
    requires Settle(l, hi, razorpayOrderId, first).Ok?
    ensures var twice := Settle(Settle(l, hi, razorpayOrderId, first).value, hi, razorpayOrderId, second);
            var once := Settle(l, hi, razorpayOrderId, second);
            && twice.Ok? && once.Ok?
            && twice.value.orders == once.value.orders
            && twice.value.payments.Keys == once.value.payments.Keys
            && (forall k :: k in once.value.payments ==> twice.value.payments[k].status == once.value.payments[k].status)
            && (second.Captured? || first.Declined? ==> twice == once)
  {
    var k := GatewayLookup(l.payments, hi, razorpayOrderId).value;
    var p := l.payments[k];
    var mid := Settle(l, hi, razorpayOrderId, first).value;
    FirstKeyUpdate(l.payments, WithGatewayOrder(razorpayOrderId), 0, hi, k, Mark(p, first));
    assert GatewayLookup(mid.payments, hi, razorpayOrderId) == Some(k);
    assert mid.payments[k].orderId == p.orderId;
    var order := l.orders[p.orderId];
    assert mid.orders[p.orderId := order.(status := second.OrderStatus())]
        == l.orders[p.orderId := order.(status := second.OrderStatus())];
    if second.Captured? || first.Declined? {
      assert Mark(Mark(p, first), second) == Mark(p, second);
      assert mid.payments[k := Mark(Mark(p, first), second)] == l.payments[k := Mark(p, second)];
    }
  }

  /** Replaying a notice changes nothing. */
  lemma SettleIdempotent(l: Ledger, hi: nat, razorpayOrderId: Option<string>, outcome: Outcome)
    requires Settle(l, hi, razorpayOrderId, outcome).Ok?
    ensures Settle(Settle(l, hi, razorpayOrderId, outcome).value, hi, razorpayOrderId, outcome)
         == Settle(l, hi, razorpayOrderId, outcome)
  {
    LastSettlementWins(l, hi, razorpayOrderId, outcome, outcome);
  }

  class PaymentService {
    const payments: PaymentRepository
    const orders: OrderRepository

    ghost predicate Valid()
      reads this, payments, orders
    {
      payments.Valid() && orders.Valid()
    }

    constructor (payments: PaymentRepository, orders: OrderRepository)
      requires payments.Valid() && orders.Valid()
      ensures this.payments == payments && this.orders == orders && Valid()
    {
      this.payments := payments;
      this.orders := orders;
    }

    function State(): Ledger
      reads this, payments, orders
    {
      Ledger(payments.payments, orders.orders)
    }

    /** Opens a PENDING payment for a CREATED order that has none yet, whatever the status of an
        existing one. The two gateway references are the freshly generated random identifiers, so
        no stored payment carries the order reference. The order itself is left as it is. */
    method CreatePayment(orderId: OrderId, amount: int, razorpayOrderId: string, gatewayPaymentId: string)
      returns (r: Result<Payment>)
      requires Valid() && payments.FindByRazorpayOrderId(Some(razorpayOrderId)).None?
      modifies payments
      ensures Valid()
      ensures orderId !in orders.orders ==> r == Err(OrderNotFound(orderId))
      ensures orderId in orders.orders && orders.orders[orderId].status != Created ==>
                r == Err(OrderNotCreated(orders.orders[orderId].status))
      ensures orderId in orders.orders && orders.orders[orderId].status == Created ==>
                if old(payments.FindByOrderId(orderId)).Some? then r == Err(PaymentAlreadyExists)
                else && r == Ok(Payment(old(payments.nextId), orderId, amount, Pending, razorpayOrderId, Some(gatewayPaymentId)))
                     && r.value.id !in old(payments.payments)
                     && payments.payments == old(payments.payments)[r.value.id := r.value]
                     && payments.nextId == old(payments.nextId) + 1
      ensures r.Err? ==> unchanged(payments)
    {
      if orderId !in orders.orders {
        return Err(OrderNotFound(orderId));
      }
      var order := orders.orders[orderId];
      if order.status != Created {
        return Err(OrderNotCreated(order.status));
      }
      var existing := payments.FindByOrderId(orderId);
      if existing.Some? {
        return Err(PaymentAlreadyExists);
      }
      var payment := payments.Insert(orderId, amount, Pending, razorpayOrderId, Some(gatewayPaymentId));
      r := Ok(payment);
    }

    /** The gateway captured the payment: records the gateway payment reference, marks the payment
        SUCCESS and its order PAID, as one atomic step. */
    method HandlePaymentSuccess(gatewayPaymentId: Option<string>, razorpayOrderId: Option<string>) returns (r: Result<()>)
      requires Valid()
      modifies payments, orders
      ensures Valid()
      ensures var s := Settle(old(State()), old(payments.nextId), razorpayOrderId, Captured(gatewayPaymentId));
              && (s.Err? ==> r == Err(s.error) && State() == old(State()))
              && (s.Ok? ==> r == Ok(()) && State() == s.value)
      ensures payments.nextId == old(payments.nextId) && orders.nextId == old(orders.nextId)
    {
      var found := payments.FindByRazorpayOrderId(razorpayOrderId);
      if found.None? {
        return Err(PaymentNotFound(razorpayOrderId));
      }
      var payment := found.value;
      assert GatewayLookup(payments.payments, payments.nextId, razorpayOrderId) == Some(payment.id);
      payments.Save(payment.(paymentId := gatewayPaymentId, status := Success));
      if payment.orderId !in orders.orders {
        payments.Save(payment);  // the transaction rolls the payment update back
        assert payments.payments == old(payments.payments);
        return Err(OrderNotFound(payment.orderId));
      }
      var order := orders.orders[payment.orderId];
      orders.Save(order.(status := Paid));
      r := Ok(());
    }

    /** The gateway declined the payment: marks the payment FAILED and its order FAILED, as one
        atomic step; stock is not given back. */
    method HandlePaymentFailure(razorpayOrderId: Option<string>) returns (r: Result<()>)
      requires Valid()
      modifies payments, orders
      ensures Valid()
      ensures var s := Settle(old(State()), old(payments.nextId), razorpayOrderId, Declined);
              && (s.Err? ==> r == Err(s.error) && State() == old(State()))
              && (s.Ok? ==> r == Ok(()) && State() == s.value)
      ensures payments.nextId == old(payments.nextId) && orders.nextId == old(orders.nextId)
    {
      var found := payments.FindByRazorpayOrderId(razorpayOrderId);
      if found.None? {
        return Err(PaymentNotFound(razorpayOrderId));
      }
      var payment := found.value;
      assert GatewayLookup(payments.payments, payments.nextId, razorpayOrderId) == Some(payment.id);
      payments.Save(payment.(status := Failure));
      if payment.orderId !in orders.orders {
        payments.Save(payment);  // the transaction rolls the payment update back
        assert payments.payments == old(payments.payments);
        return Err(OrderNotFound(payment.orderId));
      }
      var order := orders.orders[payment.orderId];
      orders.Save(order.(status := Failed));
      r := Ok(());
    }

    /** The order's payment, present exactly when the order has one. */
    function GetPaymentByOrderId(orderId: OrderId): (r: Option<Payment>)
      reads this, payments
      requires payments.Valid()
      ensures r.Some? ==> r.value.id in payments.payments && payments.payments[r.value.id] == r.value
                          && r.value.orderId == orderId
      ensures r.None? <==> forall k :: k in payments.payments ==> payments.payments[k].orderId != orderId
    {
      payments.FindByOrderId(orderId)
    }

    /** The stored payment, or "payment not found" when the id is absent. */
    function GetPaymentById(id: PaymentId): (r: Result<Payment>)
      reads this, payments
      ensures r.Ok? <==> id in payments.payments
      ensures r.Ok? ==> r.value == payments.payments[id]
      ensures r.Err? ==> r.error == PaymentIdNotFound(id)
    {
      match payments.FindById(id)
      case Some(p) => Ok(p)
      case None => Err(PaymentIdNotFound(id))
    }
  }
}

/** The gateway's webhook: which settlement a notice asks for, and what the endpoint answers. */
module Webhooks {
  import opened Domain
  import opened Payments

  /** A payload value as the endpoint reads it: a string, JSON null, or a value of another type. */
  datatype Value = Str(s: string) | Null | Other

  type Payload = map<string, Value>

  const CapturedEvent: string := "payment.captured"
  const OrderPaidEvent: string := "order.paid"
  const FailedEvent: string := "payment.failed"

  /** A field cast to a string: Some(Some(s)) for a string, Some(None) for an absent or null
      field, None when the cast fails. */
  function StringField(payload: Payload, key: string): (r: Option<Option<string>>)
    ensures r.None? <==> key in payload && payload[key].Other?
    ensures r == Some(None) <==> key !in payload || payload[key].Null?
    ensures forall s :: r == Some(Some(s)) <==> key in payload && payload[key] == Str(s)
  {
    if key !in payload then Some(None)
    else match payload[key]
      case Str(s) => Some(Some(s))
      case Null => Some(None)
      case Other => None
  }

  /** The service call a notice leads to; a null field is passed on as an absent reference. */
  datatype Call =
    | NoCall
    | SuccessCall(gatewayPaymentId: Option<string>, razorpayOrderId: Option<string>)
    | FailureCall(razorpayOrderId: Option<string>, reason: Option<string>)

  /** The endpoint's answer: processed (200), event type not found (400), processing failed (500). */
  datatype Reply = Processed | BadRequest | ProcessingFailed

  datatype Dispatch = Dispatch(call: Call, reply: Reply)

  /** The success helper's call: top-level `paymentId` and `orderId`; a failed cast of either is
      swallowed by the helper, and no call is made. */
  function SuccessFields(payload: Payload): (c: Call)
    ensures c.NoCall? || c.SuccessCall?
    ensures c.NoCall? <==> StringField(payload, "paymentId").None? || StringField(payload, "orderId").None?
    ensures c.SuccessCall? ==> && StringField(payload, "paymentId") == Some(c.gatewayPaymentId)
                               && StringField(payload, "orderId") == Some(c.razorpayOrderId)
  {
    match (StringField(payload, "paymentId"), StringField(payload, "orderId"))
    case (Some(paymentId), Some(orderId)) => SuccessCall(paymentId, orderId)
    case _ => NoCall
  }

  /** The failure helper's call: top-level `orderId` and `reason`, likewise. */
  function FailureFields(payload: Payload): (c: Call)
    ensures c.NoCall? || c.FailureCall?
    ensures c.NoCall? <==> StringField(payload, "orderId").None? || StringField(payload, "reason").None?
    ensures c.FailureCall? ==> && StringField(payload, "orderId") == Some(c.razorpayOrderId)
                               && StringField(payload, "reason") == Some(c.reason)
  {
    match (StringField(payload, "orderId"), StringField(payload, "reason"))
    case (Some(orderId), Some(reason)) => FailureCall(orderId, reason)
    case _ => NoCall
  }

  /** What the endpoint does with a payload. A missing or null event is a bad request; an event
      that is not a string fails the whole request; a capture or paid event calls the success
      handler, a failed event the failure handler, and any other event is ignored. Whatever the
      handler does, even failing, the request is answered as processed. */
  function Classify(payload: Payload): (d: Dispatch)
    ensures d.reply == BadRequest <==> "event" !in payload || payload["event"].Null?
    ensures d.reply == ProcessingFailed <==> "event" in payload && payload["event"].Other?
    ensures d.reply != Processed ==> d.call == NoCall
    ensures d.call.SuccessCall? ==>
              && "event" in payload && payload["event"] in {Str(CapturedEvent), Str(OrderPaidEvent)}
              && StringField(payload, "paymentId") == Some(d.call.gatewayPaymentId)
              && StringField(payload, "orderId") == Some(d.call.razorpayOrderId)
    ensures d.call.FailureCall? ==>
              && "event" in payload && payload["event"] == Str(FailedEvent)
              && StringField(payload, "orderId") == Some(d.call.razorpayOrderId)
              && StringField(payload, "reason") == Some(d.call.reason)
    ensures d.reply == Processed && d.call == NoCall ==>
              || payload["event"] !in {Str(CapturedEvent), Str(OrderPaidEvent), Str(FailedEvent)}
              || (payload["event"] == Str(FailedEvent) && (StringField(payload, "orderId").None? || StringField(payload, "reason").None?))
              || (payload["event"] in {Str(CapturedEvent), Str(OrderPaidEvent)}
                  && (StringField(payload, "paymentId").None? || StringField(payload, "orderId").None?))
  {
    match StringField(payload, "event")
    case None => Dispatch(NoCall, ProcessingFailed)
    case Some(None) => Dispatch(NoCall, BadRequest)
    case Some(Some(event)) =>
      if event == CapturedEvent || event == OrderPaidEvent then Dispatch(SuccessFields(payload), Processed)
      else if event == FailedEvent then Dispatch(FailureFields(payload), Processed)
      else Dispatch(NoCall, Processed)
  }

  /** A capture notice without a top-level order reference reaches the success handler with an
      absent reference, which no payment carries, so the handler fails, the failure is swallowed
      and the notice is still answered as processed. */
  lemma CaptureWithoutOrderId(l: Ledger, hi: nat, paymentId: string)
    ensures var payload: Payload := map["event" := Str(CapturedEvent), "paymentId" := Str(paymentId)];
            && Classify(payload) == Dispatch(SuccessCall(Some(paymentId), None), Processed)
            && Settle(l, hi, None, Captured(Some(paymentId))) == Err(PaymentNotFound(None))
  {
  }

  /** A failure notice reaches the failure handler with its top-level order reference and reason,
      whatever else the payload carries: the failure helper never reads the payment reference. */
  lemma FailureIgnoresPaymentId(orderId: string, reason: string)
    ensures var payload: Payload :=
              map["event" := Str(FailedEvent), "orderId" := Str(orderId), "reason" := Str(reason), "paymentId" := Other];
            Classify(payload) == Dispatch(FailureCall(Some(orderId), Some(reason)), Processed)
  {
  }

  class PaymentServiceClient {
    const paymentService: PaymentService

    ghost predicate Valid()
      reads this, paymentService, paymentService.payments, paymentService.orders
    {
      paymentService.Valid()
    }

    constructor (paymentService: PaymentService)
      requires paymentService.Valid()
      ensures this.paymentService == paymentService && Valid()
    {
      this.paymentService := paymentService;
    }

    /** Applies the notice's settlement, if it asks for one, and answers as `Classify` says; a
        settlement that fails leaves payments and orders as they were. */
    method HandlePaymentWebhook(payload: Payload) returns (reply: Reply)
      requires Valid()
      modifies paymentService.payments, paymentService.orders
      ensures Valid()
      ensures reply == Classify(payload).reply
      ensures var call := Classify(payload).call;
              var before := old(paymentService.State());
              var hi := old(paymentService.payments.nextId);
              var settled :=
                match call
                case NoCall => Ok(before)
                case SuccessCall(paymentId, orderId) => Settle(before, hi, orderId, Captured(paymentId))
                case FailureCall(orderId, _) => Settle(before, hi, orderId, Declined);
              paymentService.State() == (if settled.Ok? then settled.value else before)
    {
      var dispatch := Classify(payload);
      match dispatch.call {
        case NoCall =>
        case SuccessCall(paymentId, orderId) =>
          var _ := paymentService.HandlePaymentSuccess(paymentId, orderId);
        case FailureCall(orderId, _) =>
          var _ := paymentService.HandlePaymentFailure(orderId);
      }
      reply := dispatch.reply;
    }
  }
}

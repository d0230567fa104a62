/** How the services' messages meet: what the payment service makes of the
    request the gateway sends it, and what the gateway makes of the replies
    the payment service and its breaker give back. */
module Composition {
  import opened Js
  import opened Wire
  import Inventory
  import Payment
  import Gateway

  /** An item adds NaN to the total when some entry has its product and no
      entry has a price. */
  lemma {:induction false} PricelessContribution(item: Item, entries: seq<CheckEntry>, j: nat)
    requires j < |entries| && Some(entries[j].productId) == item.productId
    requires forall i :: 0 <= i < |entries| ==> entries[i].price.None?
    ensures Gateway.Contribution(item, entries).NaN?
    decreases j
  {
    if Some(entries[0].productId) != item.productId {
      PricelessContribution(item, entries[1..], j - 1);
    }
  }

  /** The entries the inventory check returns carry no price, so the total the
      gateway computes over them is NaN for every order with at least one item. */
  lemma CheckedTotalIsNaN(inv: seq<Inventory.Product>, items: seq<Item>, entries: seq<CheckEntry>)
    requires |items| > 0 && |entries| == |items|
    requires forall k :: 0 <= k < |items| ==> HasFields(items[k]) && entries[k] == Inventory.EntryFor(inv, items[k])
    ensures Gateway.TotalAmount(items, entries).NaN?
  {
    PricelessContribution(items[0], entries, 0);
    Gateway.TotalNaNIff(items, entries);
  }

  /** The body of the gateway's payment request, as the payment service
      destructures it. */
  function PaymentRequestOf(orderId: string, total: Num, payment: Json): (req: Payment.PaymentRequest)
    ensures req.orderId == Some(JStr(orderId)) && req.amount == Some(Serialize(total))
    ensures req.currency == Field(payment, "currency") && req.paymentMethod == Field(payment, "method")
  {
    Payment.RequestOf(Gateway.PaymentCall(orderId, total, payment).data.value)
  }

  /** A stored payment takes the order's own `currency` and `method`, and the
      payment service's defaults only when the order has none. */
  lemma PaymentDefaultsOfOrder(orderId: string, total: Num, payment: Json, fired: Guarded<()>, clock: string, timestamp: string)
    requires Payment.CreateOutcome(PaymentRequestOf(orderId, total, payment), fired, clock, timestamp).Created?
    ensures var p := Payment.CreateOutcome(PaymentRequestOf(orderId, total, payment), fired, clock, timestamp).payment;
      && p.currency == Payment.WithDefault(Field(payment, "currency"), Payment.DefaultCurrency)
      && p.paymentMethod == Payment.WithDefault(Field(payment, "method"), Payment.DefaultMethod)
  {
  }

  /** A NaN total arrives as `null` and a zero total as `0`: both are falsy,
      so the payment service answers 400 whatever its breaker would do. */
  lemma FalsyTotalIsRefused(orderId: string, total: Num, payment: Json, fired: Guarded<()>, clock: string, timestamp: string)
    requires total.NaN? || total == Int(0)
    ensures Payment.CreateOutcome(PaymentRequestOf(orderId, total, payment), fired, clock, timestamp)
      == Payment.CreateRejected(Payment.AmountRequired)
  {
  }

  /** A nonzero total is accepted by the payment service's validation. */
  lemma NonzeroTotalPassesValidation(orderId: string, n: int, payment: Json, fired: Guarded<()>, clock: string, timestamp: string)
    requires orderId != "" && n != 0
    ensures !Payment.CreateOutcome(PaymentRequestOf(orderId, Int(n), payment), fired, clock, timestamp).CreateRejected?
  {
  }

  /** The gateway lets an order through on a payment record exactly when the
      gateway call behind it replied: a record made from the payment
      breaker's fallback is "pending" and has lost the fallback's message, so
      the "later" exception never applies to it. */
  lemma RecordVerdict(p: Payment.PaymentRecord)
    ensures Gateway.PaymentVerdict(Payment.RecordJson(p)).Proceed? <==> p.status == "success"
    ensures Gateway.PaymentVerdict(Payment.RecordJson(p)).Decline? <==> p.status != "success"
  {
    Gateway.PaymentVerdictCases(Payment.RecordJson(p));
  }

  /** The payment that the service stores when its own breaker falls back
      does not let the order through. */
  lemma PendingPaymentDeclines(req: Payment.PaymentRequest, clock: string, timestamp: string)
    requires Payment.CreateOutcome(req, FellBack, clock, timestamp).Created?
    ensures Gateway.PaymentVerdict(Payment.RecordJson(Payment.CreateOutcome(req, FellBack, clock, timestamp).payment)).Decline?
  {
    RecordVerdict(Payment.CreateOutcome(req, FellBack, clock, timestamp).payment);
  }

  /** The fallback object of the gateway's payment breaker has no status and
      no message, so it declines the order. */
  lemma PaymentFallbackDeclines()
    ensures Gateway.PaymentVerdict(Gateway.FallbackObject(Gateway.PaymentBackend)).Decline?
  {
    var j := Gateway.FallbackObject(Gateway.PaymentBackend);
    assert Field(j, "status").None? by {
      assert "status" !in j.fields;
    }
  }

  /** The order as the services are written: the inventory check clears a
      nonempty order, the gateway sends a NaN total that the payment service
      refuses with a 400, and when the breaker answers that failure with its
      fallback the order ends with "Payment failed" after two calls, before
      any stock is taken or shipment made. */
  lemma CheckedOrderFailsPayment(req: Gateway.OrderRequest, orderId: string, timestamp: string,
                                 inv: seq<Inventory.Product>, entries: seq<CheckEntry>, b: Gateway.Breakers)
    requires Gateway.ValidOrder(req) && |req.items.value| > 0 && |entries| == |req.items.value|
    requires forall k :: 0 <= k < |entries| ==>
      HasFields(req.items.value[k]) && entries[k] == Inventory.EntryFor(inv, req.items.value[k])
    requires b.check == Replied(Gateway.CheckReply(Some(true), Some(entries), None))
    requires b.pay == FellBack
    ensures var w := Gateway.Workflow(req, orderId, timestamp, b);
      && w.response == Gateway.PaymentFailed(Gateway.PaymentFailedError, Gateway.FallbackObject(Gateway.PaymentBackend))
      && |w.calls| == 2
      && w.calls[1].data.Some?
      && Payment.RequestOf(w.calls[1].data.value).amount == Some(JNull)
  {
    var items := req.items.value;
    CheckedTotalIsNaN(inv, items, entries);
    PaymentFallbackDeclines();
    Gateway.WorkflowCalls(req, orderId, timestamp, b);
    Gateway.WorkflowCallCount(req, orderId, timestamp, b);
    Gateway.WorkflowResponses(req, orderId, timestamp, b);
    var o := Gateway.OrderOf(req, orderId, timestamp);
    assert Gateway.PlannedCalls(o, b.check)[1] == Gateway.PaymentCall(orderId, NaN, o.payment);
  }
}

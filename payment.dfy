/** The payment service: validation with defaults, a call to a simulated
    payment gateway behind a circuit breaker whose fallback answers "pending",
    an append-only list of payment records and a lookup by order id. */
module Payment {
  import opened Js

  /** The properties `POST /api/payments` destructures from its body. */
  datatype PaymentRequest = PaymentRequest(
    orderId: Option<Json>,
    amount: Option<Json>,
    currency: Option<Json>,
    paymentMethod: Option<Json>)

  /** `const { orderId, amount, currency, method } = req.body`. */
  function RequestOf(body: Json): (req: PaymentRequest)
    ensures req.orderId == Field(body, "orderId") && req.amount == Field(body, "amount")
    ensures req.currency == Field(body, "currency") && req.paymentMethod == Field(body, "method")
  {
    PaymentRequest(Field(body, "orderId"), Field(body, "amount"), Field(body, "currency"), Field(body, "method"))
  }

  const DefaultCurrency := "USD"
  const DefaultMethod := "credit_card"
  const AmountRequired := "Order ID and amount are required"
  const ProcessingFailed := "Failed to process payment"
  const FallbackMessage := "Payment service is experiencing issues, payment will be processed later"
  const PaymentNotFound := "Payment not found"

  /** A destructuring default: it applies only when the property is absent. */
  function WithDefault(v: Option<Json>, d: string): (r: Json)
    ensures v.None? ==> r == JStr(d)
    ensures v.Some? ==> r == v.value
  {
    if v.Some? then v.value else JStr(d)
  }

  /** What the breaker-guarded gateway call resolves to. */
  datatype GatewayResult = GatewayResult(transactionId: string, status: string, message: Option<string>)

  /** The simulated gateway's answer when it does not fail. */
  function Approval(clock: string): (g: GatewayResult)
    ensures g.status == "success" && g.message.None?
    ensures g.transactionId == "txn_" + clock
  {
    GatewayResult("txn_" + clock, "success", None)
  }

  /** The breaker's fallback object. */
  function Fallback(clock: string): (g: GatewayResult)
    ensures g.status == "pending" && g.message == Some(FallbackMessage)
    ensures g.transactionId == "fallback_" + clock
  {
    GatewayResult("fallback_" + clock, "pending", Some(FallbackMessage))
  }

  /** `paymentGatewayBreaker.fire(paymentData)`: the gateway's approval, the
      fallback object, or the error the breaker threw. */
  function FireGateway(fired: Guarded<()>, clock: string): (s: Settled<GatewayResult>)
    ensures s.Rejected? <==> fired.Threw?
  {
    var guarded: Guarded<GatewayResult> :=
      match fired
      case Replied(_) => Replied(Approval(clock))
      case FellBack => FellBack
      case Threw(e) => Threw(e);
    Fire(guarded, Fallback(clock))
  }

  /** One stored payment: the request data with its defaults and the
      timestamp, plus `transactionId` and `status` from the gateway result. */
  datatype PaymentRecord = PaymentRecord(
    orderId: Json,
    amount: Json,
    currency: Json,
    paymentMethod: Json,
    timestamp: string,
    transactionId: string,
    status: string)

  /** The record as the service serialises it in its replies. */
  function RecordJson(p: PaymentRecord): (j: Json)
    ensures j.JObj? && "message" !in j.fields
    ensures Field(j, "status") == Some(JStr(p.status))
    ensures Field(j, "amount") == Some(p.amount)
  {
    JObj(map[
      "orderId" := p.orderId,
      "amount" := p.amount,
      "currency" := p.currency,
      "method" := p.paymentMethod,
      "timestamp" := JStr(p.timestamp),
      "transactionId" := JStr(p.transactionId),
      "status" := JStr(p.status)])
  }

  datatype CreateResponse =
    | CreateRejected(error: string)                // 400
    | Created(payment: PaymentRecord)              // 201
    | CreateFailed(error: string, message: string) // 500

  /** `POST /api/payments`: `fired` is how the breaker call ended, `clock` the
      time the gateway or the fallback read, `timestamp` the request's time. */
  function CreateOutcome(req: PaymentRequest, fired: Guarded<()>, clock: string, timestamp: string): (r: CreateResponse)
    ensures r.CreateRejected? <==> !Truthy(req.orderId) || !Truthy(req.amount)
    ensures r.CreateRejected? ==> r.error == AmountRequired
    ensures r.CreateFailed? <==> Truthy(req.orderId) && Truthy(req.amount) && fired.Threw?
    ensures r.CreateFailed? ==> r.error == ProcessingFailed && r.message == fired.error.message
    ensures r.Created? ==>
      && r.payment.orderId == req.orderId.value && r.payment.amount == req.amount.value
      && r.payment.currency == WithDefault(req.currency, DefaultCurrency)
      && r.payment.paymentMethod == WithDefault(req.paymentMethod, DefaultMethod)
      && r.payment.timestamp == timestamp
      && (r.payment.status == "success" <==> fired.Replied?)
      && (fired.Replied? ==> r.payment.transactionId == "txn_" + clock)
      && (fired.FellBack? ==> r.payment.status == "pending" && r.payment.transactionId == "fallback_" + clock)
  {
    if !Truthy(req.orderId) || !Truthy(req.amount) then CreateRejected(AmountRequired)
    else
      match FireGateway(fired, clock)
      case Rejected(e) => CreateFailed(ProcessingFailed, e.message)
      case Resolved(result) =>
        Created(PaymentRecord(
          req.orderId.value, req.amount.value,
          WithDefault(req.currency, DefaultCurrency), WithDefault(req.paymentMethod, DefaultMethod),
          timestamp, result.transactionId, result.status))
  }

  /** `payments.find(p => p.orderId === orderId)`, as an index. A path
      parameter is a string, so only records whose `orderId` is that string match. */
  function FindPayment(payments: seq<PaymentRecord>, orderId: string): (r: Option<nat>)
    ensures r.Some? ==> r.value < |payments| && payments[r.value].orderId == JStr(orderId)
    ensures r.Some? ==> forall j :: 0 <= j < r.value ==> payments[j].orderId != JStr(orderId)
    ensures r.None? <==> forall j :: 0 <= j < |payments| ==> payments[j].orderId != JStr(orderId)
  {
    FirstIndex(payments, (p: PaymentRecord) => p.orderId == JStr(orderId))
  }

  /** Appending a record leaves every earlier answer of the lookup in place:
      the new record is found only for an order id no older record has. */
  lemma FindAfterAppend(payments: seq<PaymentRecord>, p: PaymentRecord, orderId: string)
    ensures var before := FindPayment(payments, orderId);
      FindPayment(payments + [p], orderId) ==
        if before.Some? then before
        else if p.orderId == JStr(orderId) then Some(|payments|)
        else None
  {
    var after := FindPayment(payments + [p], orderId);
    var before := FindPayment(payments, orderId);
    if before.Some? {
      assert (payments + [p])[before.value] == payments[before.value];
    } else if after.Some? {
      assert after.value == |payments|;
    } else {
      assert (payments + [p])[|payments|] == p;
    }
  }

  datatype LookupResponse = PaymentFound(payment: PaymentRecord) | LookupNotFound(error: string)  // 200 | 404

  class PaymentService {
    var payments: seq<PaymentRecord>

    constructor ()
      ensures payments == []
    {
      payments := [];
    }

    /** `POST /api/payments`: appends exactly the record it answers 201 with. */
    method Create(req: PaymentRequest, fired: Guarded<()>, clock: string, timestamp: string)
      returns (r: CreateResponse)
      modifies this
      ensures r == CreateOutcome(req, fired, clock, timestamp)
      ensures r.Created? ==> payments == old(payments) + [r.payment]
      ensures !r.Created? ==> payments == old(payments)
    {
      if !Truthy(req.orderId) || !Truthy(req.amount) {
        return CreateRejected(AmountRequired);
      }
      var result: GatewayResult;
      match fired {
        case Replied(_) => result := Approval(clock);
        case FellBack => result := Fallback(clock);
        case Threw(e) => return CreateFailed(ProcessingFailed, e.message);
      }
      var payment := PaymentRecord(
        req.orderId.value, req.amount.value,
        WithDefault(req.currency, DefaultCurrency), WithDefault(req.paymentMethod, DefaultMethod),
        timestamp, result.transactionId, result.status);
      payments := payments + [payment];
      r := Created(payment);
    }

    /** `GET /api/payments/:orderId`: the first record for the order, else 404. */
    method Get(orderId: string) returns (r: LookupResponse)
      ensures r.PaymentFound? <==> exists j :: 0 <= j < |payments| && payments[j].orderId == JStr(orderId)
      ensures r.PaymentFound? ==> r.payment == payments[FindPayment(payments, orderId).value]
      ensures r.LookupNotFound? ==> r.error == PaymentNotFound
    {
      var found := FindPayment(payments, orderId);
      if found.None? {
        return LookupNotFound(PaymentNotFound);
      }
      r := PaymentFound(payments[found.value]);
    }
  }
}

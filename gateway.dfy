/** The API gateway: a time limiter around every breaker call, the proxy
    routes that forward a request to one back end, the order workflow that
    drives the three services in turn, and the health aggregation. */
module Gateway {
  import opened Js
  import opened Wire

  // ---------------------------------------------------------------- time limiter

  const TimedOutMessage := "Service request timed out"

  /** `timeoutServiceCall`: a value passes through, the time limiter's own
      `TimeoutError` becomes a plain error with a fixed message, and every
      other error is rethrown as it is. */
  function TimeoutServiceCall<T>(s: Settled<T>): (r: Settled<T>)
    ensures s.Resolved? ==> r == s
    ensures s.Rejected? && s.error.TimeoutError? ==> r == Rejected(Error(TimedOutMessage))
    ensures s.Rejected? && s.error.Error? ==> r == s
    ensures r.Rejected? ==> r.error.Error?
  {
    match s
    case Resolved(_) => s
    case Rejected(e) => if e.TimeoutError? then Rejected(Error(TimedOutMessage)) else s
  }

  /** `timeoutServiceCall(breaker.fire(...))`, given the breaker's fallback value. */
  function Guard<T>(g: Guarded<T>, fallback: T): (s: Settled<T>)
    ensures s.Rejected? <==> g.Threw?
    ensures g.Replied? ==> s == Resolved(g.value)
    ensures g.FellBack? ==> s == Resolved(fallback)
    ensures g.Threw? ==> s.error == if g.error.TimeoutError? then Error(TimedOutMessage) else g.error
  {
    TimeoutServiceCall(Fire(g, fallback))
  }

  // ---------------------------------------------------------------- back ends

  datatype Backend = PaymentBackend | InventoryBackend | ShippingBackend

  /** The path prefix each back end is mounted at. */
  function Prefix(b: Backend): string
  {
    match b
    case PaymentBackend => "/api/payments"
    case InventoryBackend => "/api/inventory"
    case ShippingBackend => "/api/shipping"
  }

  function Label(b: Backend): string
  {
    match b
    case PaymentBackend => "Payment"
    case InventoryBackend => "Inventory"
    case ShippingBackend => "Shipping"
  }

  /** The fallback object of each back end's breaker. */
  function FallbackObject(b: Backend): (j: Json)
    ensures j.JObj? && j.fields.Keys == {"error"}
  {
    JObj(map["error" := JStr(UnavailableMessage(b))])
  }

  /** The message every fallback object carries. */
  function UnavailableMessage(b: Backend): string
  {
    Label(b) + " service is currently unavailable"
  }

  /** A request the gateway sends: back end, path, lower-case method (`verb`), body. */
  datatype Call = Call(backend: Backend, path: string, verb: string, data: Option<Json>)

  // ---------------------------------------------------------------- proxies

  /** The call a proxy route makes for a request with method `reqMethod`,
      sub-path `url` and body `body`. */
  function ProxyCall(b: Backend, reqMethod: string, url: string, body: Json): (c: Call)
    ensures c.backend == b && c.path == Prefix(b) + url
    ensures |c.verb| == |reqMethod| && forall i :: 0 <= i < |reqMethod| ==> c.verb[i] == LowerChar(reqMethod[i])
    ensures c.data.None? <==> c.verb == "get"
    ensures c.data.Some? ==> c.data.value == body
  {
    var verb := ToLower(reqMethod);
    Call(b, Prefix(b) + url, verb, if verb == "get" then None else Some(body))
  }

  /** A GET in any letter case is forwarded without a body. */
  lemma ProxyGetHasNoBody(b: Backend, url: string, body: Json)
    ensures ProxyCall(b, "GET", url, body).data.None?
    ensures ProxyCall(b, "Get", url, body).data.None?
    ensures ProxyCall(b, "POST", url, body).data == Some(body)
  {
    assert ToLower("GET") == "get";
    assert ToLower("Get") == "get";
    assert ToLower("POST") == "post";
  }

  datatype HttpReply = HttpReply(status: int, body: Json)

  /** `{ error, message }`. */
  function ErrorBody(error: string, message: string): Json
  {
    JObj(map["error" := JStr(error), "message" := JStr(message)])
  }

  /** The answer of a proxy route: 200 with whatever the breaker resolved to
      (the back end's data or the fallback object), 503 when it threw. */
  function ProxyResponse(b: Backend, g: Guarded<Json>): (r: HttpReply)
    ensures r.status == 503 <==> g.Threw?
    ensures r.status != 503 ==> r.status == 200
    ensures g.Replied? ==> r.body == g.value
    ensures g.FellBack? ==> r.body == FallbackObject(b)
    ensures g.Threw? ==>
      r.body == ErrorBody(Label(b) + " service error",
                          if g.error.TimeoutError? then TimedOutMessage else g.error.message)
  {
    match Guard(g, FallbackObject(b))
    case Resolved(v) => HttpReply(200, v)
    case Rejected(e) => HttpReply(503, ErrorBody(Label(b) + " service error", e.message))
  }

  // ---------------------------------------------------------------- order workflow

  /** The properties `POST /api/orders` destructures from its body; `items`
      is absent or an array. */
  datatype OrderRequest = OrderRequest(items: Option<seq<Item>>, payment: Option<Json>, shippingAddress: Option<Json>)

  /** The inventory check's reply as the gateway reads it; the fallback
      object has only `error`. */
  datatype CheckReply = CheckReply(available: Option<bool>, items: Option<seq<CheckEntry>>, error: Option<string>)

  const CheckFallback := CheckReply(None, None, Some(UnavailableMessage(InventoryBackend)))

  const FieldsRequired := "Items, payment, and shipping address are required"
  const ItemsUnavailableError := "Some items are not available in the requested quantity"
  const PaymentFailedError := "Payment failed"
  const ProcessFailed := "Failed to process order"

  /** The messages of the `TypeError`s the handler can raise on replies that
      lack what it reads. */
  const FilterOfUndefined := "Cannot read properties of undefined (reading 'filter')"
  const FindOfUndefined := "Cannot read properties of undefined (reading 'find')"
  const StatusOfNull := "Cannot read properties of null (reading 'status')"
  const IncludesNotFunction := "paymentResult.message?.includes is not a function"

  /** An object literal whose absent properties are left out, as
      `JSON.stringify` leaves out `undefined`. */
  function Props(props: seq<(string, Option<Json>)>): (m: map<string, Json>)
    ensures forall k :: k in m ==> exists i :: 0 <= i < |props| && props[i].0 == k && props[i].1 == Some(m[k])
    decreases |props|
  {
    if props == [] then map[]
    else
      var last := props[|props| - 1];
      var m := Props(props[..|props| - 1]);
      if last.1.Some? then m[last.0 := last.1.value] else m
  }

  function OptStr(s: Option<string>): Option<Json>
  {
    if s.Some? then Some(JStr(s.value)) else None
  }

  function OptNum(n: Option<int>): Option<Json>
  {
    if n.Some? then Some(JNum(n.value)) else None
  }

  function ItemJson(item: Item): Json
  {
    JObj(Props([("productId", OptStr(item.productId)), ("quantity", OptNum(item.quantity))]))
  }

  function ItemsJson(items: seq<Item>): (j: Json)
    ensures j.JArr? && |j.elems| == |items|
    ensures forall k :: 0 <= k < |items| ==> j.elems[k] == ItemJson(items[k])
  {
    JArr(seq(|items|, k requires 0 <= k < |items| => ItemJson(items[k])))
  }

  /** Step 1: `POST /api/inventory/check` with `{ items }`. */
  function CheckCall(items: seq<Item>): Call
  {
    Call(InventoryBackend, "/api/inventory/check", "post", Some(JObj(map["items" := ItemsJson(items)])))
  }

  /** Step 2: `POST /api/payments` with the order id, the total (NaN is sent
      as `null`) and the payment's `currency` and `method` when present. */
  function PaymentCall(orderId: string, total: Num, payment: Json): (c: Call)
    ensures c.data.Some? && c.data.value.JObj?
    ensures Field(c.data.value, "amount") == Some(Serialize(total))
    ensures Field(c.data.value, "orderId") == Some(JStr(orderId))
    ensures Field(c.data.value, "currency") == Field(payment, "currency")
    ensures Field(c.data.value, "method") == Field(payment, "method")
  {
    var props := [("currency", Field(payment, "currency")), ("method", Field(payment, "method"))];
    assert props[..1][..0] == [] && props[..1][|props[..1]| - 1] == props[0];
    assert Props(props[..1]) == if props[0].1.Some? then map["currency" := props[0].1.value] else map[];
    var optional := Props(props);
    assert optional == if props[1].1.Some? then Props(props[..1])["method" := props[1].1.value] else Props(props[..1]);
    Call(PaymentBackend, "/api/payments", "post",
         Some(JObj(optional["orderId" := JStr(orderId)]["amount" := Serialize(total)])))
  }

  /** Step 3: `POST /api/inventory/update` with `{ orderId, items }`, each
      item cut down to `productId` and `quantity`. */
  function UpdateCall(orderId: string, items: seq<Item>): Call
  {
    Call(InventoryBackend, "/api/inventory/update", "post",
         Some(JObj(map["orderId" := JStr(orderId), "items" := ItemsJson(items)])))
  }

  /** Step 4: `POST /api/shipping` with `{ orderId, address, items }`. */
  function ShippingCall(orderId: string, address: Json, items: seq<Item>): (c: Call)
    ensures c.data.Some? && Field(c.data.value, "orderId") == Some(JStr(orderId))
    ensures Field(c.data.value, "address") == Some(address) && Field(c.data.value, "items") == Some(ItemsJson(items))
  {
    Call(ShippingBackend, "/api/shipping", "post",
         Some(JObj(map["orderId" := JStr(orderId), "address" := address, "items" := ItemsJson(items)])))
  }

  /** What one requested item adds to the total: its quantity times the price
      of the first check entry for its product (`find`), or 0 when there is none. */
  function Contribution(item: Item, entries: seq<CheckEntry>): (r: Num)
    ensures r.NaN? ==> item.quantity.None? || exists j :: 0 <= j < |entries| && entries[j].price.None?
  {
    if entries == [] then Int(0)
    else if Some(entries[0].productId) == item.productId then Mul(item.quantity, entries[0].price)
    else Contribution(item, entries[1..])
  }

  /** An item adds NaN exactly when the first entry for its product has no
      price or the item has no quantity; an item with no entry adds 0. */
  lemma {:induction false} ContributionCases(item: Item, entries: seq<CheckEntry>)
    ensures Contribution(item, entries).NaN? <==>
      exists j :: 0 <= j < |entries| && Some(entries[j].productId) == item.productId
        && (item.quantity.None? || entries[j].price.None?)
        && forall i :: 0 <= i < j ==> Some(entries[i].productId) != item.productId
    ensures (forall j :: 0 <= j < |entries| ==> Some(entries[j].productId) != item.productId) ==>
      Contribution(item, entries) == Int(0)
  {
    if entries != [] && Some(entries[0].productId) != item.productId {
      var rest := entries[1..];
      ContributionCases(item, rest);
      if Contribution(item, entries).NaN? {
        var j :| 0 <= j < |rest| && Some(rest[j].productId) == item.productId
          && (item.quantity.None? || rest[j].price.None?)
          && forall i :: 0 <= i < j ==> Some(rest[i].productId) != item.productId;
        assert entries[j + 1] == rest[j];
        forall i | 0 <= i < j + 1
          ensures Some(entries[i].productId) != item.productId
        {
          if i > 0 {
            assert entries[i] == rest[i - 1];
          }
        }
      } else {
        forall j | 0 <= j < |entries| && Some(entries[j].productId) == item.productId
          && (item.quantity.None? || entries[j].price.None?)
          ensures exists i :: 0 <= i < j && Some(entries[i].productId) == item.productId
        {
          assert j > 0 && entries[j] == rest[j - 1];
          var i :| 0 <= i < j - 1 && Some(rest[i].productId) == item.productId;
          assert entries[i + 1] == rest[i];
        }
      }
      if forall j :: 0 <= j < |entries| ==> Some(entries[j].productId) != item.productId {
        forall j | 0 <= j < |rest|
          ensures Some(rest[j].productId) != item.productId
        {
          assert rest[j] == entries[j + 1];
        }
      }
    }
  }

  /** The contribution is the quantity times the price of the entry that
      `inventoryCheck.items.find(i => i.productId === item.productId)` returns,
      or 0 when `find` returns nothing. */
  lemma {:induction false} ContributionOfFind(item: Item, entries: seq<CheckEntry>)
    ensures var f := FirstIndex(entries, (e: CheckEntry) => Some(e.productId) == item.productId);
      Contribution(item, entries) == if f.None? then Int(0) else Mul(item.quantity, entries[f.value].price)
  {
    if entries != [] && Some(entries[0].productId) != item.productId {
      ContributionOfFind(item, entries[1..]);
    }
  }

  /** `items.reduce((sum, item) => sum + ..., 0)`. */
  function TotalAmount(items: seq<Item>, entries: seq<CheckEntry>): (t: Num)
    ensures t.Int? <==> forall k :: 0 <= k < |items| ==> Contribution(items[k], entries).Int?
    decreases |items|
  {
    if items == [] then Int(0)
    else Add(TotalAmount(items[..|items| - 1], entries), Contribution(items[|items| - 1], entries))
  }

  /** The total is NaN exactly when some item's contribution is: once NaN,
      the sum stays NaN. */
  lemma {:induction false} TotalNaNIff(items: seq<Item>, entries: seq<CheckEntry>)
    ensures TotalAmount(items, entries).NaN? <==> exists k :: 0 <= k < |items| && Contribution(items[k], entries).NaN?
    decreases |items|
  {
    if items != [] {
      var pre := items[..|items| - 1];
      TotalNaNIff(pre, entries);
      if exists k :: 0 <= k < |pre| && Contribution(pre[k], entries).NaN? {
        var k :| 0 <= k < |pre| && Contribution(pre[k], entries).NaN?;
        assert items[k] == pre[k];
      }
      if exists k :: 0 <= k < |items| && Contribution(items[k], entries).NaN? {
        var k :| 0 <= k < |items| && Contribution(items[k], entries).NaN?;
        if k < |pre| {
          assert pre[k] == items[k];
        }
      }
    }
  }

  /** The sum of the item contributions when none is NaN. */
  lemma {:induction false} TotalOfUnmatched(items: seq<Item>, entries: seq<CheckEntry>)
    requires forall k, j :: 0 <= k < |items| && 0 <= j < |entries| ==> Some(entries[j].productId) != items[k].productId
    ensures TotalAmount(items, entries) == Int(0)
    decreases |items|
  {
    if items != [] {
      TotalOfUnmatched(items[..|items| - 1], entries);
      ContributionCases(items[|items| - 1], entries);
    }
  }

  /** Whether the payment outcome lets the workflow go on. */
  datatype Verdict = Proceed | Decline | VerdictTypeError(message: string)

  /** `paymentResult.message?.includes('later')` is true: the message is a
      string containing "later", or an array holding that string. */
  predicate MentionsLater(message: Option<Json>)
  {
    message.Some? &&
      match message.value
      case JStr(s) => Includes(s, "later")
      case JArr(es) => JStr("later") in es
      case _ => false
  }

  /** Reading `.includes` off the message and calling it throws. */
  predicate IncludesThrows(message: Option<Json>)
  {
    message.Some? && (message.value.JNum? || message.value.JBool? || message.value.JObj?)
  }

  /** `paymentResult.status !== 'success' && !paymentResult.message?.includes('later')`. */
  function PaymentVerdict(reply: Json): (v: Verdict)
    ensures v.Proceed? ==> reply.JObj?
    ensures reply.JObj? && Field(reply, "status") == Some(JStr("success")) ==> v.Proceed?
    ensures v.VerdictTypeError? ==> v.message == StatusOfNull || v.message == IncludesNotFunction
  {
    if reply.JNull? then VerdictTypeError(StatusOfNull)
    else if !reply.JObj? then Decline
    else if Field(reply, "status") == Some(JStr("success")) then Proceed
    else
      var message := Field(reply, "message");
      if message.None? || message.value.JNull? then Decline
      else match message.value
        case JStr(s) => if Includes(s, "later") then Proceed else Decline
        case JArr(es) => if JStr("later") in es then Proceed else Decline
        case _ => VerdictTypeError(IncludesNotFunction)
  }

  /** The workflow goes on exactly when the reply is an object whose status
      is "success" or whose message mentions "later"; reading the reply
      throws when it is null, or when the message must be searched but is a
      number, a boolean or an object. */
  lemma PaymentVerdictCases(reply: Json)
    ensures PaymentVerdict(reply).Proceed? <==>
      reply.JObj? && (Field(reply, "status") == Some(JStr("success")) || MentionsLater(Field(reply, "message")))
    ensures PaymentVerdict(reply).VerdictTypeError? <==>
      reply.JNull? ||
      (reply.JObj? && Field(reply, "status") != Some(JStr("success")) && IncludesThrows(Field(reply, "message")))
    ensures PaymentVerdict(reply).VerdictTypeError? ==> PaymentVerdict(reply).message == if reply.JNull? then StatusOfNull else IncludesNotFunction
  {
  }

  /** A reply whose message says the payment will be processed later lets the
      workflow go on even though its status is not "success". */
  lemma LaterMessageProceeds(status: Json, message: string)
    requires exists i :: OccursAt(message, "later", i)
    ensures PaymentVerdict(JObj(map["status" := status, "message" := JStr(message)])).Proceed?
  {
    IncludesIffOccurs(message, "later");
  }

  datatype OrderResponse =
    | OrderRejected(error: string)                                   // 400
    | ItemsUnavailable(error: string, unavailable: seq<CheckEntry>)      // 400
    | PaymentFailed(error: string, details: Json)                    // 400
    | OrderCreated(orderId: string, status: string, timestamp: string,
                   items: Option<seq<CheckEntry>>, payment: Json, shipping: Json)  // 201
    | OrderFailed(error: string, message: string)                    // 500

  /** The handler's validation: `items`, `payment` and `shippingAddress`
      must all be present and truthy (`items` is an array here, and arrays
      are truthy). */
  predicate ValidOrder(req: OrderRequest)
  {
    req.items.Some? && Truthy(req.payment) && Truthy(req.shippingAddress)
  }

  /** What the later steps work with: the generated id and time and the
      three properties of a valid request. */
  datatype Order = Order(orderId: string, timestamp: string, items: seq<Item>, payment: Json, address: Json)

  function OrderOf(req: OrderRequest, orderId: string, timestamp: string): (o: Order)
    requires ValidOrder(req)
    ensures o.items == req.items.value && o.payment == req.payment.value && o.address == req.shippingAddress.value
  {
    Order(orderId, timestamp, req.items.value, req.payment.value, req.shippingAddress.value)
  }

  /** How each of the four breaker calls of an order ends. */
  datatype Breakers = Breakers(check: Guarded<CheckReply>, pay: Guarded<Json>, update: Guarded<Json>, ship: Guarded<Json>)

  /** The check reply's entries, or none when it has none. */
  function Entries(reply: CheckReply): seq<CheckEntry>
  {
    if reply.items.Some? then reply.items.value else []
  }

  /** The order gets past the inventory check. */
  predicate ClearsCheck(req: OrderRequest, b: Breakers)
  {
    && ValidOrder(req)
    && var c := Guard(b.check, CheckFallback);
    && c.Resolved? && c.value.available == Some(true)
    && (req.items.value == [] || c.value.items.Some?)
  }

  /** The order gets past the payment. */
  predicate ClearsPayment(req: OrderRequest, b: Breakers)
  {
    && ClearsCheck(req, b)
    && var p := Guard(b.pay, FallbackObject(PaymentBackend));
    && p.Resolved? && PaymentVerdict(p.value).Proceed?
  }

  /** The order gets past the inventory update: only a thrown error stops it. */
  predicate ClearsUpdate(req: OrderRequest, b: Breakers)
  {
    ClearsPayment(req, b) && Guard(b.update, FallbackObject(InventoryBackend)).Resolved?
  }

  /** The four calls of an order, in the order the handler makes them; the
      payment carries the total over the check's entries. */
  function PlannedCalls(o: Order, check: Guarded<CheckReply>): (calls: seq<Call>)
    ensures |calls| == 4
  {
    var c := Guard(check, CheckFallback);
    var entries := if c.Resolved? then Entries(c.value) else [];
    [ CheckCall(o.items),
      PaymentCall(o.orderId, TotalAmount(o.items, entries), o.payment),
      UpdateCall(o.orderId, o.items),
      ShippingCall(o.orderId, o.address, o.items) ]
  }

  /** The handler's answer and the calls it made, in order. */
  datatype OrderOutcome = OrderOutcome(response: OrderResponse, calls: seq<Call>)

  /** Steps 3 and 4 of `POST /api/orders`, once the payment let the order
      through. `entries` are the check's entries, `paymentResult` the
      payment reply. */
  function Fulfil(o: Order, entries: Option<seq<CheckEntry>>, paymentResult: Json, b: Breakers): (f: OrderOutcome)
    ensures 1 <= |f.calls| <= 2 && f.calls[0] == UpdateCall(o.orderId, o.items)
    ensures f.response.OrderCreated? || (f.response.OrderFailed? && f.response.error == ProcessFailed)
  {
    var updated := Guard(b.update, FallbackObject(InventoryBackend));
    if updated.Rejected? then OrderOutcome(OrderFailed(ProcessFailed, updated.error.message), [UpdateCall(o.orderId, o.items)])
    else
      var calls := [UpdateCall(o.orderId, o.items), ShippingCall(o.orderId, o.address, o.items)];
      var shipped := Guard(b.ship, FallbackObject(ShippingBackend));
      if shipped.Rejected? then OrderOutcome(OrderFailed(ProcessFailed, shipped.error.message), calls)
      else OrderOutcome(OrderCreated(o.orderId, "CREATED", o.timestamp, entries, paymentResult, shipped.value), calls)
  }

  /** The update's reply is never inspected: whatever it resolves to, even
      the fallback object, the shipment is requested next; only a thrown
      error stops the order, with a 500. */
  lemma FulfilCases(o: Order, entries: Option<seq<CheckEntry>>, paymentResult: Json, b: Breakers)
    ensures var f := Fulfil(o, entries, paymentResult, b);
      var u, s := Guard(b.update, FallbackObject(InventoryBackend)), Guard(b.ship, FallbackObject(ShippingBackend));
      && 1 <= |f.calls| <= 2 && f.calls[0] == UpdateCall(o.orderId, o.items)
      && (|f.calls| == 2 <==> u.Resolved?)
      && (|f.calls| == 2 ==> f.calls[1] == ShippingCall(o.orderId, o.address, o.items))
      && (f.response.OrderCreated? <==> u.Resolved? && s.Resolved?)
      && (f.response.OrderCreated? ==>
            f.response == OrderCreated(o.orderId, "CREATED", o.timestamp, entries, paymentResult, s.value))
      && (!f.response.OrderCreated? ==> f.response.OrderFailed? && f.response.error == ProcessFailed)
  {
  }

  /** What the handler does with the payment reply: it stops the order when
      the reply does not let it through, and otherwise goes on to steps 3 and 4. */
  function AfterPayment(o: Order, entries: Option<seq<CheckEntry>>, paymentResult: Json, b: Breakers): (f: OrderOutcome)
    ensures !PaymentVerdict(paymentResult).Proceed? ==> f.calls == []
    ensures f.response.PaymentFailed? <==> PaymentVerdict(paymentResult).Decline?
    ensures f.response.PaymentFailed? ==> f.response == PaymentFailed(PaymentFailedError, paymentResult)
    ensures f.response.OrderCreated? || f.response.OrderFailed? || f.response.PaymentFailed?
  {
    match PaymentVerdict(paymentResult)
    case VerdictTypeError(m) => OrderOutcome(OrderFailed(ProcessFailed, m), [])
    case Decline => OrderOutcome(PaymentFailed(PaymentFailedError, paymentResult), [])
    case Proceed => Fulfil(o, entries, paymentResult, b)
  }

  /** Steps 2 to 4 of `POST /api/orders`, once the check let the order
      through with reply `reply`. */
  function PayAndFulfil(o: Order, reply: CheckReply, b: Breakers): (f: OrderOutcome)
    ensures 1 <= |f.calls| <= 3
    ensures f.calls[0] == PaymentCall(o.orderId, TotalAmount(o.items, Entries(reply)), o.payment)
    ensures f.response.OrderCreated? || f.response.OrderFailed? || f.response.PaymentFailed?
  {
    var payCalls := [PaymentCall(o.orderId, TotalAmount(o.items, Entries(reply)), o.payment)];
    var paid := Guard(b.pay, FallbackObject(PaymentBackend));
    if paid.Rejected? then OrderOutcome(OrderFailed(ProcessFailed, paid.error.message), payCalls)
    else
      var rest := AfterPayment(o, reply.items, paid.value, b);
      OrderOutcome(rest.response, payCalls + rest.calls)
  }

  /** The payment is requested with the total over the check's entries; a
      reply that does not let the order through stops it before the update,
      with 400 "Payment failed" or, when reading the reply throws, a 500. */
  lemma {:induction false} PayAndFulfilCases(o: Order, reply: CheckReply, b: Breakers)
    ensures var f := PayAndFulfil(o, reply, b);
      var p := Guard(b.pay, FallbackObject(PaymentBackend));
      var proceeds := p.Resolved? && PaymentVerdict(p.value).Proceed?;
      var updated := proceeds && Guard(b.update, FallbackObject(InventoryBackend)).Resolved?;
      && 1 <= |f.calls| <= 3
      && f.calls[0] == PaymentCall(o.orderId, TotalAmount(o.items, Entries(reply)), o.payment)
      && (2 <= |f.calls| <==> proceeds)
      && (2 <= |f.calls| ==> f.calls[1] == UpdateCall(o.orderId, o.items))
      && (3 == |f.calls| <==> updated)
      && (3 == |f.calls| ==> f.calls[2] == ShippingCall(o.orderId, o.address, o.items))
      && (f.response.PaymentFailed? <==> p.Resolved? && PaymentVerdict(p.value).Decline?)
      && (f.response.PaymentFailed? ==> f.response == PaymentFailed(PaymentFailedError, p.value))
      && (f.response.OrderCreated? <==> updated && Guard(b.ship, FallbackObject(ShippingBackend)).Resolved?)
      && (f.response.OrderCreated? ==>
            f.response == OrderCreated(o.orderId, "CREATED", o.timestamp, reply.items, p.value,
                                       Guard(b.ship, FallbackObject(ShippingBackend)).value))
      && (f.response.OrderFailed? || f.response.PaymentFailed? || f.response.OrderCreated?)
      && (f.response.OrderFailed? ==> f.response.error == ProcessFailed)
  {
    var p := Guard(b.pay, FallbackObject(PaymentBackend));
    if p.Resolved? && PaymentVerdict(p.value).Proceed? {
      FulfilCases(o, reply.items, p.value, b);
    }
  }

  /** `inventoryCheck.items.filter(item => !item.available)`: the entries
      reported out of stock, and only those, each as often as the reply has it. */
  function UnavailableEntries(entries: seq<CheckEntry>): (r: seq<CheckEntry>)
    ensures |r| <= |entries|
    ensures forall e :: e in r <==> e in entries && !e.available
    ensures forall e :: multiset(r)[e] == if e.available then 0 else multiset(entries)[e]
  {
    FilterCount(entries, (e: CheckEntry) => !e.available);
    Filter(entries, (e: CheckEntry) => !e.available)
  }

  /** The details keep the reply's order: one entry's contribution is itself
      or nothing, and the parts of a split reply line up. */
  lemma UnavailableEntriesInOrder(a: seq<CheckEntry>, b: seq<CheckEntry>, e: CheckEntry)
    ensures UnavailableEntries(a + b) == UnavailableEntries(a) + UnavailableEntries(b)
    ensures UnavailableEntries([e]) == if e.available then [] else [e]
  {
    FilterAppend(a, b, (e: CheckEntry) => !e.available);
  }

  /** What the handler does with the check reply `reply`: it stops the order
      when the reply does not clear it, and otherwise goes on to step 2. */
  function AfterCheck(o: Order, reply: CheckReply, b: Breakers): (f: OrderOutcome)
    ensures reply.available != Some(true) ==> f.calls == []
    ensures f.response.ItemsUnavailable? <==> reply.available != Some(true) && reply.items.Some?
    ensures f.response.ItemsUnavailable? ==> f.response.unavailable == UnavailableEntries(reply.items.value)
    ensures !f.response.OrderRejected?
  {
    if reply.available != Some(true) then
      if reply.items.None? then OrderOutcome(OrderFailed(ProcessFailed, FilterOfUndefined), [])
      else OrderOutcome(ItemsUnavailable(ItemsUnavailableError, UnavailableEntries(reply.items.value)), [])
    else if o.items != [] && reply.items.None? then OrderOutcome(OrderFailed(ProcessFailed, FindOfUndefined), [])
    else PayAndFulfil(o, reply, b)
  }

  /** What `POST /api/orders` does. `b` says how each breaker call ends;
      `orderId` and `timestamp` are the generated id and time. */
  function Workflow(req: OrderRequest, orderId: string, timestamp: string, b: Breakers): (w: OrderOutcome)
    ensures w.response.OrderRejected? <==> !ValidOrder(req)
    ensures !ValidOrder(req) ==> w.calls == []
    ensures ValidOrder(req) ==> 1 <= |w.calls| <= 4 && w.calls[0] == CheckCall(req.items.value)
  {
    if !ValidOrder(req) then OrderOutcome(OrderRejected(FieldsRequired), [])
    else
      var o := OrderOf(req, orderId, timestamp);
      var checkCalls := [CheckCall(o.items)];
      var checked := Guard(b.check, CheckFallback);
      if checked.Rejected? then OrderOutcome(OrderFailed(ProcessFailed, checked.error.message), checkCalls)
      else
        var rest := AfterCheck(o, checked.value, b);
        OrderOutcome(rest.response, checkCalls + rest.calls)
  }

  /** After a check reply, the handler's calls are the planned ones from the
      payment on. */
  lemma AfterCheckCalls(o: Order, check: Guarded<CheckReply>, b: Breakers)
    requires Guard(check, CheckFallback).Resolved?
    ensures var rest := AfterCheck(o, Guard(check, CheckFallback).value, b);
      forall k :: 0 <= k < |rest.calls| ==> rest.calls[k] == PlannedCalls(o, check)[k + 1]
  {
    var reply := Guard(check, CheckFallback).value;
    if AfterCheck(o, reply, b).calls != [] {
      assert AfterCheck(o, reply, b) == PayAndFulfil(o, reply, b);
      PayAndFulfilCases(o, reply, b);
    }
  }

  /** The calls run strictly in the order check, payment, update, shipment:
      whatever the handler calls is a prefix of the four planned calls. */
  lemma WorkflowCalls(req: OrderRequest, orderId: string, timestamp: string, b: Breakers)
    requires ValidOrder(req)
    ensures var w := Workflow(req, orderId, timestamp, b);
      forall k :: 0 <= k < |w.calls| ==> w.calls[k] == PlannedCalls(OrderOf(req, orderId, timestamp), b.check)[k]
  {
    var o := OrderOf(req, orderId, timestamp);
    if Guard(b.check, CheckFallback).Resolved? {
      AfterCheckCalls(o, b.check, b);
    }
  }

  /** Each call is made exactly when every step before it let the order through. */
  lemma {:induction false} WorkflowCallCount(req: OrderRequest, orderId: string, timestamp: string, b: Breakers)
    ensures var w := Workflow(req, orderId, timestamp, b);
      && (2 <= |w.calls| <==> ClearsCheck(req, b))
      && (3 <= |w.calls| <==> ClearsPayment(req, b))
      && (4 == |w.calls| <==> ClearsUpdate(req, b))
  {
    if ClearsCheck(req, b) {
      PayAndFulfilCases(OrderOf(req, orderId, timestamp), Guard(b.check, CheckFallback).value, b);
    }
  }

  /** Which answer the order gets: 400 for missing fields before any call,
      400 with the unavailable entries after the check, 400 "Payment failed"
      with the payment reply, 201 with the check entries and the payment and
      shipping replies verbatim, and 500 for anything that threw. */
  lemma {:induction false} WorkflowResponses(req: OrderRequest, orderId: string, timestamp: string, b: Breakers)
    ensures var r := Workflow(req, orderId, timestamp, b).response;
      var c, p := Guard(b.check, CheckFallback), Guard(b.pay, FallbackObject(PaymentBackend));
      && (r.OrderRejected? <==> !ValidOrder(req))
      && (r.OrderRejected? ==> r.error == FieldsRequired)
      && (r.ItemsUnavailable? <==>
            ValidOrder(req) && c.Resolved? && c.value.available != Some(true) && c.value.items.Some?)
      && (r.ItemsUnavailable? ==>
            r.error == ItemsUnavailableError && r.unavailable == UnavailableEntries(c.value.items.value))
      && (r.PaymentFailed? <==> ClearsCheck(req, b) && p.Resolved? && PaymentVerdict(p.value).Decline?)
      && (r.PaymentFailed? ==> r.error == PaymentFailedError && r.details == p.value)
      && (r.OrderCreated? <==> ClearsUpdate(req, b) && Guard(b.ship, FallbackObject(ShippingBackend)).Resolved?)
      && (r.OrderCreated? ==>
            && r.orderId == orderId && r.status == "CREATED" && r.timestamp == timestamp
            && r.items == c.value.items && r.payment == p.value
            && r.shipping == Guard(b.ship, FallbackObject(ShippingBackend)).value)
      && (r.OrderFailed? ==> r.error == ProcessFailed)
  {
    if ClearsCheck(req, b) {
      PayAndFulfilCases(OrderOf(req, orderId, timestamp), Guard(b.check, CheckFallback).value, b);
    }
  }

  /** `POST /api/orders`: validation and step 1, the inventory check. */
  method ProcessOrder(req: OrderRequest, orderId: string, timestamp: string, b: Breakers)
    returns (r: OrderResponse, calls: seq<Call>)
    ensures OrderOutcome(r, calls) == Workflow(req, orderId, timestamp, b)
  {
    if req.items.None? || !Truthy(req.payment) || !Truthy(req.shippingAddress) {
      return OrderRejected(FieldsRequired), [];
    }
    var o := Order(orderId, timestamp, req.items.value, req.payment.value, req.shippingAddress.value);
    calls := [CheckCall(o.items)];
    var checked := Guard(b.check, CheckFallback);
    if checked.Rejected? {
      return OrderFailed(ProcessFailed, checked.error.message), calls;
    }
    var rest;
    r, rest := ActOnCheck(o, checked.value, b);
    calls := calls + rest;
  }

  /** The verdict on the check reply, then step 2 when it clears the order. */
  method ActOnCheck(o: Order, inventoryCheck: CheckReply, b: Breakers) returns (r: OrderResponse, calls: seq<Call>)
    ensures OrderOutcome(r, calls) == AfterCheck(o, inventoryCheck, b)
  {
    if inventoryCheck.available != Some(true) {
      calls := [];
      if inventoryCheck.items.None? {
        r := OrderFailed(ProcessFailed, FilterOfUndefined);
      } else {
        r := ItemsUnavailable(ItemsUnavailableError, UnavailableEntries(inventoryCheck.items.value));
      }
    } else if o.items != [] && inventoryCheck.items.None? {
      r, calls := OrderFailed(ProcessFailed, FindOfUndefined), [];
    } else {
      r, calls := ProcessPayment(o, inventoryCheck, b);
    }
  }

  /** Step 2 of `POST /api/orders`: the total and the payment call. */
  method ProcessPayment(o: Order, inventoryCheck: CheckReply, b: Breakers) returns (r: OrderResponse, calls: seq<Call>)
    ensures OrderOutcome(r, calls) == PayAndFulfil(o, inventoryCheck, b)
  {
    var totalAmount := TotalAmount(o.items, Entries(inventoryCheck));
    calls := [PaymentCall(o.orderId, totalAmount, o.payment)];
    var paid := Guard(b.pay, FallbackObject(PaymentBackend));
    if paid.Rejected? {
      return OrderFailed(ProcessFailed, paid.error.message), calls;
    }
    var rest;
    r, rest := ActOnPayment(o, inventoryCheck.items, paid.value, b);
    calls := calls + rest;
  }

  /** The verdict on the payment reply, then steps 3 and 4 when it lets the order through. */
  method ActOnPayment(o: Order, entries: Option<seq<CheckEntry>>, paymentResult: Json, b: Breakers)
    returns (r: OrderResponse, calls: seq<Call>)
    ensures OrderOutcome(r, calls) == AfterPayment(o, entries, paymentResult, b)
  {
    calls := [];
    match PaymentVerdict(paymentResult) {
      case VerdictTypeError(m) =>
        r := OrderFailed(ProcessFailed, m);
      case Decline =>
        r := PaymentFailed(PaymentFailedError, paymentResult);
      case Proceed =>
        r, calls := UpdateAndShip(o, entries, paymentResult, b);
    }
  }

  /** Steps 3 and 4 of `POST /api/orders`; the update's reply is not inspected. */
  method UpdateAndShip(o: Order, entries: Option<seq<CheckEntry>>, paymentResult: Json, b: Breakers)
    returns (r: OrderResponse, calls: seq<Call>)
    ensures OrderOutcome(r, calls) == Fulfil(o, entries, paymentResult, b)
  {
    calls := [UpdateCall(o.orderId, o.items)];
    var updated := Guard(b.update, FallbackObject(InventoryBackend));
    if updated.Rejected? {
      return OrderFailed(ProcessFailed, updated.error.message), calls;
    }
    calls := calls + [ShippingCall(o.orderId, o.address, o.items)];
    var shipped := Guard(b.ship, FallbackObject(ShippingBackend));
    if shipped.Rejected? {
      return OrderFailed(ProcessFailed, shipped.error.message), calls;
    }
    r := OrderCreated(o.orderId, "CREATED", o.timestamp, entries, paymentResult, shipped.value);
  }

  // ---------------------------------------------------------------- health

  datatype ServiceStatus = ServiceStatus(service: Option<string>, status: string)

  /** One settled health probe. Each probe turns its own failure into a
      "DOWN" status, so a rejected probe is one whose reason is unknown;
      `service` is that reason's `service` property. */
  datatype Probe = Fulfilled(value: ServiceStatus) | ProbeRejected(service: Option<string>)

  /** The probe of service `name`: "UP" when `/health` answered in time. */
  function ProbeOf(name: string, answered: bool): Probe
  {
    Fulfilled(ServiceStatus(Some(name), if answered then "UP" else "DOWN"))
  }

  datatype Health = Health(status: string, gateway: string, services: seq<ServiceStatus>)

  /** `GET /health`: one status per probe, in order, and "UP" overall exactly
      when every service is up; the gateway reports itself up regardless. */
  function Aggregate(probes: seq<Probe>): (h: Health)
    ensures |h.services| == |probes|
    ensures forall k :: 0 <= k < |probes| && probes[k].Fulfilled? ==> h.services[k] == probes[k].value
    ensures forall k :: 0 <= k < |probes| && probes[k].ProbeRejected? ==>
      h.services[k] == ServiceStatus(probes[k].service, "DOWN")
    ensures h.status == "UP" <==> forall k :: 0 <= k < |h.services| ==> h.services[k].status == "UP"
    ensures h.status != "UP" ==> h.status == "PARTIAL"
    ensures h.gateway == "UP"
  {
    var statuses := seq(|probes|, k requires 0 <= k < |probes| =>
      match probes[k]
      case Fulfilled(v) => v
      case ProbeRejected(s) => ServiceStatus(s, "DOWN"));
    var allUp := Every(statuses, (s: ServiceStatus) => s.status == "UP");
    Health(if allUp then "UP" else "PARTIAL", "UP", statuses)
  }

  const ServiceNames := ["payment-service", "inventory-service", "shipping-service"]

  /** With the three services probed, the gateway reports "UP" exactly when
      all three answered, and names each service in order. */
  lemma HealthOfServices(answered: seq<bool>)
    requires |answered| == |ServiceNames|
    ensures var h := Aggregate(seq(3, k requires 0 <= k < 3 => ProbeOf(ServiceNames[k], answered[k])));
      && (h.status == "UP" <==> answered[0] && answered[1] && answered[2])
      && forall k :: 0 <= k < 3 ==> h.services[k].service == Some(ServiceNames[k])
  {
    var probes := seq(3, k requires 0 <= k < 3 => ProbeOf(ServiceNames[k], answered[k]));
    var h := Aggregate(probes);
    assert forall k :: 0 <= k < 3 ==> h.services[k].status == (if answered[k] then "UP" else "DOWN");
  }
}

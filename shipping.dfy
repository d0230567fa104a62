/** The shipping service: shipment creation through a simulated provider
    called behind a circuit breaker (whose fallback answers "Pending") inside
    a retry wrapper, an append-only list of shipments, a lookup by order id,
    and a validated in-place status change. */
module Shipping {
  import opened Js

  /** The properties `POST /api/shipping` destructures from its body. */
  datatype ShipmentRequest = ShipmentRequest(orderId: Option<Json>, address: Option<Json>, items: Option<Json>)

  /** `const { orderId, address, items } = req.body`. */
  function RequestOf(body: Json): (req: ShipmentRequest)
    ensures req.orderId == Field(body, "orderId") && req.address == Field(body, "address")
    ensures req.items == Field(body, "items")
  {
    ShipmentRequest(Field(body, "orderId"), Field(body, "address"), Field(body, "items"))
  }

  const FieldsRequired := "Order ID, address, and items are required"
  const ShipmentNotFound := "Shipment not found"
  const CreationFailed := "Failed to create shipment"
  const InvalidStatusError := "Invalid status"
  const StatusRequired := "Status is required"
  const FallbackMessage := "Shipping service is experiencing issues, shipment will be processed later"

  /** What the breaker-guarded provider call resolves to. */
  datatype ProviderResult = ProviderResult(trackingNumber: string, estimatedDelivery: string, carrier: string, message: Option<string>)

  /** The simulated provider's answer when it does not fail; `eta` is the date three days on. */
  function Dispatch(clock: string, eta: string): (p: ProviderResult)
    ensures p.trackingNumber == "TRK" + clock && p.estimatedDelivery == eta
    ensures p.carrier == "Express Shipping" && p.message.None?
  {
    ProviderResult("TRK" + clock, eta, "Express Shipping", None)
  }

  /** The breaker's fallback object. */
  function Fallback(clock: string): (p: ProviderResult)
    ensures p.trackingNumber == "PENDING-" + clock && p.estimatedDelivery == "Pending" && p.carrier == "Pending"
    ensures p.message == Some(FallbackMessage)
  {
    ProviderResult("PENDING-" + clock, "Pending", "Pending", Some(FallbackMessage))
  }

  /** Number of attempts the retry wrapper makes: the first, then `retries: 3`. */
  const RetryAttempts := 4

  /** How attempt `i` of the breaker call ends; attempts past the end of
      `attempts` reach the provider. */
  function AttemptAt(attempts: seq<Guarded<()>>, i: nat): Guarded<()>
  {
    if i < |attempts| then attempts[i] else Replied(())
  }

  /** One `shippingProviderBreaker.fire(shipmentData)`. */
  function FireProvider(g: Guarded<()>, clock: string, eta: string): (s: Settled<ProviderResult>)
    ensures s.Rejected? <==> g.Threw?
  {
    var guarded: Guarded<ProviderResult> :=
      match g
      case Replied(_) => Replied(Dispatch(clock, eta))
      case FellBack => FellBack
      case Threw(e) => Threw(e);
    Fire(guarded, Fallback(clock))
  }

  /** The retry wrapper around the breaker call, from attempt `i` on with
      `left` attempts to go: the first attempt that does not throw decides. */
  function Retried(attempts: seq<Guarded<()>>, i: nat, left: nat, clock: string, eta: string): (s: Settled<ProviderResult>)
    requires left >= 1
    ensures s.Rejected? ==> AttemptAt(attempts, i + left - 1).Threw? && s.error == AttemptAt(attempts, i + left - 1).error
    ensures !AttemptAt(attempts, i).Threw? ==> s == FireProvider(AttemptAt(attempts, i), clock, eta)
    decreases left
  {
    var s := FireProvider(AttemptAt(attempts, i), clock, eta);
    if s.Resolved? || left == 1 then s else Retried(attempts, i + 1, left - 1, clock, eta)
  }

  /** Attempt `k` is the first from `i` on that does not throw. */
  ghost predicate FirstNotThrowing(attempts: seq<Guarded<()>>, i: nat, k: nat)
  {
    i <= k && !AttemptAt(attempts, k).Threw? && forall m :: i <= m < k ==> AttemptAt(attempts, m).Threw?
  }

  /** The retried call resolves exactly when one of its attempts does not
      throw, and then with the first such attempt's answer; otherwise it
      rejects with the last attempt's error. */
  lemma {:induction false} RetriedOutcome(attempts: seq<Guarded<()>>, i: nat, left: nat, clock: string, eta: string)
    requires left >= 1
    ensures var s := Retried(attempts, i, left, clock, eta);
      && (s.Resolved? <==> exists k :: i <= k < i + left && !AttemptAt(attempts, k).Threw?)
      && (s.Resolved? ==>
            exists k: nat :: FirstNotThrowing(attempts, i, k) && k < i + left && s == FireProvider(AttemptAt(attempts, k), clock, eta))
      && (s.Rejected? ==> s.error == AttemptAt(attempts, i + left - 1).error)
    decreases left
  {
    var s := Retried(attempts, i, left, clock, eta);
    if !AttemptAt(attempts, i).Threw? {
      assert FirstNotThrowing(attempts, i, i);
    } else if left > 1 {
      RetriedOutcome(attempts, i + 1, left - 1, clock, eta);
      if s.Resolved? {
        var k: nat :| FirstNotThrowing(attempts, i + 1, k) && k < i + left && s == FireProvider(AttemptAt(attempts, k), clock, eta);
        assert FirstNotThrowing(attempts, i, k);
      } else {
        forall k | i <= k < i + left
          ensures AttemptAt(attempts, k).Threw?
        {
          if k > i {
            assert i + 1 <= k < i + 1 + (left - 1);
          }
        }
      }
    }
  }

  /** One stored shipment. */
  datatype Shipment = Shipment(
    orderId: Json,
    address: Json,
    items: Json,
    status: string,
    createdAt: string,
    trackingNumber: string,
    estimatedDelivery: string,
    carrier: string,
    updatedAt: Option<string>)

  datatype CreateResponse =
    | CreateRejected(error: string)                // 400
    | Created(shipment: Shipment)                  // 201
    | CreateFailed(error: string, message: string) // 500

  /** `POST /api/shipping`: `attempts` says how each breaker call of the retry
      wrapper ends, `clock` and `eta` are the times the provider or the
      fallback read, `createdAt` is the request's time. */
  function CreateOutcome(req: ShipmentRequest, attempts: seq<Guarded<()>>, clock: string, eta: string, createdAt: string)
    : (r: CreateResponse)
    ensures r.CreateRejected? <==> !Truthy(req.orderId) || !Truthy(req.address) || !Truthy(req.items)
    ensures r.CreateRejected? ==> r.error == FieldsRequired
    ensures r.CreateFailed? <==>
      && Truthy(req.orderId) && Truthy(req.address) && Truthy(req.items)
      && forall k :: 0 <= k < RetryAttempts ==> AttemptAt(attempts, k).Threw?
    ensures r.CreateFailed? ==> r.error == CreationFailed && r.message == AttemptAt(attempts, RetryAttempts - 1).error.message
    ensures r.Created? ==>
      && r.shipment.orderId == req.orderId.value
      && r.shipment.address == req.address.value
      && r.shipment.items == req.items.value
      && r.shipment.status == "PROCESSING"
      && r.shipment.createdAt == createdAt
      && r.shipment.updatedAt.None?
      && exists k: nat :: FirstNotThrowing(attempts, 0, k) && k < RetryAttempts
           && (AttemptAt(attempts, k).Replied? ==>
                 r.shipment.trackingNumber == "TRK" + clock && r.shipment.estimatedDelivery == eta
                 && r.shipment.carrier == "Express Shipping")
           && (AttemptAt(attempts, k).FellBack? ==>
                 r.shipment.trackingNumber == "PENDING-" + clock && r.shipment.estimatedDelivery == "Pending"
                 && r.shipment.carrier == "Pending")
  {
    if !Truthy(req.orderId) || !Truthy(req.address) || !Truthy(req.items) then CreateRejected(FieldsRequired)
    else
      RetriedOutcome(attempts, 0, RetryAttempts, clock, eta);
      match Retried(attempts, 0, RetryAttempts, clock, eta)
      case Rejected(e) => CreateFailed(CreationFailed, e.message)
      case Resolved(result) =>
        Created(Shipment(req.orderId.value, req.address.value, req.items.value, "PROCESSING", createdAt,
                         result.trackingNumber, result.estimatedDelivery, result.carrier, None))
  }

  /** `shipments.find(s => s.orderId === orderId)`, as an index. */
  function FindShipment(shipments: seq<Shipment>, orderId: string): (r: Option<nat>)
    ensures r.Some? ==> r.value < |shipments| && shipments[r.value].orderId == JStr(orderId)
    ensures r.Some? ==> forall j :: 0 <= j < r.value ==> shipments[j].orderId != JStr(orderId)
    ensures r.None? <==> forall j :: 0 <= j < |shipments| ==> shipments[j].orderId != JStr(orderId)
  {
    FirstIndex(shipments, (s: Shipment) => s.orderId == JStr(orderId))
  }

  /** Appending a shipment leaves every earlier answer of the lookup in place. */
  lemma FindAfterAppend(shipments: seq<Shipment>, s: Shipment, orderId: string)
    ensures var before := FindShipment(shipments, orderId);
      FindShipment(shipments + [s], orderId) ==
        if before.Some? then before
        else if s.orderId == JStr(orderId) then Some(|shipments|)
        else None
  {
    var after := FindShipment(shipments + [s], orderId);
    var before := FindShipment(shipments, orderId);
    if before.Some? {
      assert (shipments + [s])[before.value] == shipments[before.value];
    } else if after.Some? {
      assert after.value == |shipments|;
    } else {
      assert (shipments + [s])[|shipments|] == s;
    }
  }

  const ValidStatuses := ["PROCESSING", "SHIPPED", "IN_TRANSIT", "DELIVERED", "FAILED"]

  /** `validStatuses.includes(status)`: only one of the five strings matches. */
  predicate IsValidStatus(status: Json): (ok: bool)
    ensures ok <==> exists i :: 0 <= i < |ValidStatuses| && status == JStr(ValidStatuses[i])
  {
    status.JStr? && status.s in ValidStatuses
  }

  /** The list after shipment `j` takes status `s` at time `now`. */
  function Restatus(shipments: seq<Shipment>, j: nat, s: string, now: string): (r: seq<Shipment>)
    requires j < |shipments|
    ensures |r| == |shipments|
    ensures r[j].status == s && r[j].updatedAt == Some(now)
    ensures r[j] == shipments[j].(status := r[j].status, updatedAt := r[j].updatedAt)
    ensures forall i :: 0 <= i < |r| && i != j ==> r[i] == shipments[i]
  {
    shipments[j := shipments[j].(status := s, updatedAt := Some(now))]
  }

  /** After a status change, the lookup of every order id lands where it did,
      and the changed order's shipment reports the new status. */
  lemma FindAfterRestatus(shipments: seq<Shipment>, orderId: string, s: string, now: string, other: string)
    requires FindShipment(shipments, orderId).Some?
    ensures var j := FindShipment(shipments, orderId).value;
      var after := Restatus(shipments, j, s, now);
      && FindShipment(after, other) == FindShipment(shipments, other)
      && FindShipment(after, orderId) == Some(j)
      && after[j].status == s
  {
    var j := FindShipment(shipments, orderId).value;
    var after := Restatus(shipments, j, s, now);
    FindShipmentSameIds(after, shipments, other);
    FindShipmentSameIds(after, shipments, orderId);
  }

  /** Two lists with the same order ids in the same places answer every lookup alike. */
  lemma FindShipmentSameIds(a: seq<Shipment>, b: seq<Shipment>, orderId: string)
    requires |a| == |b|
    requires forall i :: 0 <= i < |a| ==> a[i].orderId == b[i].orderId
    ensures FindShipment(a, orderId) == FindShipment(b, orderId)
  {
    var ra, rb := FindShipment(a, orderId), FindShipment(b, orderId);
    if ra.Some? {
      assert b[ra.value].orderId == JStr(orderId);
    }
    if rb.Some? {
      assert a[rb.value].orderId == JStr(orderId);
    }
  }

  datatype LookupResponse = ShipmentFound(shipment: Shipment) | LookupNotFound(error: string)  // 200 | 404

  datatype StatusResponse =
    | StatusMissing(error: string)                                // 400
    | StatusNotFound(error: string)                               // 404
    | InvalidStatus(error: string, validStatuses: seq<string>)    // 400
    | StatusChanged(shipment: Shipment)                           // 200

  class ShippingService {
    var shipments: seq<Shipment>

    constructor ()
      ensures shipments == []
    {
      shipments := [];
    }

    /** `POST /api/shipping`: appends exactly the shipment it answers 201 with. */
    method Create(req: ShipmentRequest, attempts: seq<Guarded<()>>, clock: string, eta: string, createdAt: string)
      returns (r: CreateResponse)
      modifies this
      ensures r == CreateOutcome(req, attempts, clock, eta, createdAt)
      ensures r.Created? ==> shipments == old(shipments) + [r.shipment]
      ensures !r.Created? ==> shipments == old(shipments)
    {
      if !Truthy(req.orderId) || !Truthy(req.address) || !Truthy(req.items) {
        return CreateRejected(FieldsRequired);
      }
      var result := Retried(attempts, 0, RetryAttempts, clock, eta);
      if result.Rejected? {
        return CreateFailed(CreationFailed, result.error.message);
      }
      var p := result.value;
      var shipment := Shipment(req.orderId.value, req.address.value, req.items.value, "PROCESSING", createdAt,
                               p.trackingNumber, p.estimatedDelivery, p.carrier, None);
      shipments := shipments + [shipment];
      r := Created(shipment);
    }

    /** `GET /api/shipping/:orderId`: the first shipment for the order, else 404. */
    method Get(orderId: string) returns (r: LookupResponse)
      ensures r.ShipmentFound? <==> exists j :: 0 <= j < |shipments| && shipments[j].orderId == JStr(orderId)
      ensures r.ShipmentFound? ==> r.shipment == shipments[FindShipment(shipments, orderId).value]
      ensures r.LookupNotFound? ==> r.error == ShipmentNotFound
    {
      var found := FindShipment(shipments, orderId);
      if found.None? {
        return LookupNotFound(ShipmentNotFound);
      }
      r := ShipmentFound(shipments[found.value]);
    }

    /** `PUT /api/shipping/:orderId/status`: a missing status is refused
        before the lookup, an unknown order before the status's validity;
        only a valid status on a known order changes the list, and then only
        the first matching shipment's status and update time. */
    method UpdateStatus(orderId: string, status: Option<Json>, now: string) returns (r: StatusResponse)
      modifies this
      ensures r.StatusMissing? <==> !Truthy(status)
      ensures r.StatusNotFound? <==> Truthy(status) && FindShipment(old(shipments), orderId).None?
      ensures r.InvalidStatus? <==>
        Truthy(status) && FindShipment(old(shipments), orderId).Some? && !IsValidStatus(status.value)
      ensures r.StatusMissing? ==> r.error == StatusRequired
      ensures r.StatusNotFound? ==> r.error == ShipmentNotFound
      ensures r.InvalidStatus? ==> r.error == InvalidStatusError && r.validStatuses == ValidStatuses
      ensures !r.StatusChanged? ==> shipments == old(shipments)
      ensures r.StatusChanged? ==>
        var j := FindShipment(old(shipments), orderId).value;
        shipments == Restatus(old(shipments), j, status.value.s, now) && r.shipment == shipments[j]
    {
      if !Truthy(status) {
        return StatusMissing(StatusRequired);
      }
      var found := FindShipment(shipments, orderId);
      if found.None? {
        return StatusNotFound(ShipmentNotFound);
      }
      if !IsValidStatus(status.value) {
        return InvalidStatus(InvalidStatusError, ValidStatuses);
      }
      var j := found.value;
      shipments := shipments[j := shipments[j].(status := status.value.s, updatedAt := Some(now))];
      r := StatusChanged(shipments[j]);
    }
  }
}

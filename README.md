# Order-processing microservices with fault-tolerance patterns, in Dafny

This project models the in-repository logic of a small Node.js system. An
API gateway drives three back ends (inventory, payment, shipping) through
circuit breakers, time limiters and retries. Two demo back ends show a
retry and a circuit breaker at work. The resilience libraries themselves
(`opossum`, `async-retry`, `promise-timeout`, `express-rate-limit`) are not
part of this model. Every library-guarded call is an abstract outcome,
`Guarded<T> = Replied(value) | FellBack | Threw(error)`. The fallback objects
the repository defines are modelled exactly.

Modules:

- `Js` (js.dfy): the JavaScript semantics the services rely on.
  - An absent property is `None`, standing for `undefined`.
  - Numbers are integers or NaN, and NaN serialises to JSON `null`.
  - Values are JSON, with truthiness and property reads.
  - Built-ins: `find`, `filter`, `every`, `includes` and ASCII `toLowerCase`.
- `Wire` (wire.dfy): the request item and check-entry shapes that pass between services.
- `Inventory` (inventory.dfy): the product table and its handlers.
  - The read-only availability check, as a loop.
  - The non-atomic stock update, as a loop that decrements rows in place, under the retry wrapper.
  - The lookup by id and its status mapping.
- `Payment` (payment.dfy) and `Shipping` (shipping.dfy): append-only record lists with first-match lookup.
  - Record creation goes through the guarded gateway or provider call.
  - Shipping adds a validated in-place status change.
- `Gateway` (gateway.dfy):
  - the `timeoutServiceCall` error mapping;
  - the proxy routes;
  - the four-step order workflow, specified by functions and carried out by methods proved equal to them;
  - the health aggregation.
- `RetryServiceB` and `BreakerServiceB`: the two counter state machines.
- `Composition` (composition.dfy): what happens where the services' messages meet.

Random failure injection, clocks and generated ids are parameters:

- a `faults` sequence for the inventory retry attempts;
- an `attempts` sequence for the shipping retry;
- `clock`, `timestamp`, `eta` and `orderId` strings.

The code has consequences that a reader of its route names might not expect; the model keeps them:

- **Check entries carry no price** (microservices/inventory-service/index.js:116-122).
  - The gateway's `totalAmount` multiplies each quantity by `undefined`, so it is NaN for every nonempty order.
  - NaN is sent as `null`, which the payment service rejects with 400.
  - When the payment breaker answers that failure with its fallback object, which has no `status`, a cleared order ends in "Payment failed" before any stock is taken.
  - Whether the breaker falls back is library behaviour, outside this model: `Composition.CheckedOrderFailsPayment` takes the fallback as a hypothesis and proves the rest of the chain.
- **The payment record drops the fallback's message.** It keeps only `transactionId` and `status` from the breaker result.
  - A "pending" payment therefore never passes the gateway's `includes('later')` test.
  - See `Composition.PendingPaymentDeclines`.
- **A failed update attempt is not rolled back.**
  - Rows decremented before the failing item stay decremented.
  - The retry wrapper re-runs the whole loop on the changed table.
  - See `Inventory.RetryDecrementsAgain`.
- **The lookup's 404 is retried** like any other error, and only the last attempt's error decides the answer.

## Model

| member | source | states |
|---|---|---|
| Inventory.InventoryService.constructor | microservices/inventory-service/index.js:13-17 | the table starts as the three products with their stock and prices, and its ids are distinct |
| Inventory.FindProduct | microservices/inventory-service/index.js:106 | the lookup yields the first row with the id, and none exactly when no row has it |
| Inventory.FindProductSameIds | microservices/inventory-service/index.js:162-173 | decrementing stock never moves where a lookup lands |
| Inventory.EntryFor | microservices/inventory-service/index.js:106-122 | an unknown product gives an unavailable "Product not found" entry; a known one reports its name, the requested quantity and the current stock, and is available iff the stock covers the quantity; no entry has a price |
| Inventory.InventoryService.Check | microservices/inventory-service/index.js:88-136 | 400 "Items array is required" when items is absent, 400 on any item with a falsy id or quantity (0 included) and then no partial results; otherwise one entry per item in input order, overall available iff every entry is; the table is not written |
| Inventory.CheckAdmitsDuplicateDemand | microservices/inventory-service/index.js:99-127 | two requests for one product are each judged against the same unchanged stock and both pass, while their combined demand makes the update fail |
| Inventory.LastStep | microservices/inventory-service/index.js:155-180 | an item run on the table its predecessors left passes iff it has both fields, its product exists and the remaining stock covers it, and then the stock drops by exactly its quantity |
| Inventory.LastFailure | microservices/inventory-service/index.js:158-170 | an item that fails throws "fields required" when a field is falsy, else "not found" for an unknown product, else "insufficient quantity" |
| Inventory.UpdateStep | microservices/inventory-service/index.js:156-180 | one iteration keeps the table's length, leaves the table as it was when it throws, and on success reports one entry whose `quantityReduced` is the item's quantity |
| Inventory.RunLoop | microservices/inventory-service/index.js:153-181 | a pass keeps the table's length and, when it completes, reports one entry per item |
| Inventory.RunLoopEffect | microservices/inventory-service/index.js:155-181 | one pass succeeds iff every item passes in turn, and then each product's stock drops by its total demand while names, ids and prices stay; when item k is the first to fail, the decrements of the items before k stay applied and the error is the one for k's missing field, unknown product or short stock |
| Inventory.RejectionIsFinal | microservices/inventory-service/index.js:158-170 | once an item throws, later items are never reached |
| Inventory.LastReport | microservices/inventory-service/index.js:173-180 | an admitted item reports its id, name, quantity taken and the stock right after its decrement |
| Inventory.ReportOfPrefix | microservices/inventory-service/index.js:175-180 | an item's report depends only on the items up to it |
| Inventory.RunLoopReports | microservices/inventory-service/index.js:153-187 | a successful pass reports one entry per item, in order, each with `newQuantity` equal to the stock after that item's decrement |
| Inventory.NegativeQuantityRestocks | microservices/inventory-service/index.js:158-173 | a negative quantity passes the falsiness test and the stock test, and raises the stock |
| Inventory.LaptopTakenBeforeThrow | microservices/inventory-service/index.js:155-173 | one laptop then 25 headphones: the laptop is taken, then the pass throws "Insufficient quantity" with the laptop still taken |
| Inventory.RetryDecrementsAgain | microservices/inventory-service/index.js:147-188 | that order retried four times from the initial table fails and leaves 6 laptops in stock |
| Inventory.LaptopTaken | microservices/inventory-service/index.js:162-180 | the laptop alone is taken from a stock of n, leaving n - 1 and reporting it |
| Inventory.RetriedUpdate | microservices/inventory-service/index.js:147-188 | the retried update keeps the table's length, reports one entry per item when it succeeds, and fails with "Database update error" when every attempt hits the injected failure |
| Inventory.KeepsIds | microservices/inventory-service/index.js:155-173 | an update attempt keeps the table's ids distinct and in place |
| Inventory.InventoryService.RunAttempt | microservices/inventory-service/index.js:149-187 | one attempt, decrementing rows in place, leaves the table and reports the outcome that `UpdateAttempt` (the injected failure, else `RunLoop`) gives for the old table |
| Inventory.InventoryService.Update | microservices/inventory-service/index.js:138-194 | 400 without touching the table when items is absent or orderId falsy; otherwise the table and the answer are those of up to four retried attempts, each starting from the table the previous one left; 200 with the updated items or 500 with the last attempt's message |
| Inventory.RetriedLookupOutcome | microservices/inventory-service/index.js:62-76 | the retried lookup finds the first row with the id iff the id exists and some attempt escapes the injected failure; otherwise the last attempt's error decides |
| Inventory.RetriedLookup | microservices/inventory-service/index.js:62-76 | a found product is the first row with the id; a failure carries status 404 or no status |
| Inventory.Respond | microservices/inventory-service/index.js:78-84 | 200 iff the lookup found the product; an error keeps the thrown message, answers with the error's status when it has a nonzero one and 500 otherwise, and says "Product not found" iff that status is 404 |
| Inventory.ProductResponseStatus | microservices/inventory-service/index.js:57-86 | 200 with the product; 404 "Product not found" exactly when the last attempt saw no such row; 500 "Failed to fetch product" for the injected failure |
| Inventory.InventoryService.GetProduct | microservices/inventory-service/index.js:57-86 | the handler's answer is `Respond` of `RetriedLookup` (so `ProductResponseStatus` applies to it): 200 with the first row with the id, 404 "Product not found", or 500 "Failed to fetch product"; the table is not written |
| Payment.RequestOf | microservices/payment-service/index.js:51 | the handler reads `orderId`, `amount`, `currency` and `method` from the body |
| Payment.WithDefault | microservices/payment-service/index.js:51 | a default applies only when the property is absent |
| Payment.Approval | microservices/payment-service/index.js:31-35 | the gateway's answer has status "success", a `txn_` id from the clock and no message |
| Payment.Fallback | microservices/payment-service/index.js:42-46 | the breaker's fallback has status "pending", a `fallback_` id from the clock and the "processed later" message |
| Payment.FireGateway | microservices/payment-service/index.js:66 | the breaker call rejects exactly when it throws; otherwise it yields the gateway's approval or the fallback object |
| Payment.RecordJson | microservices/payment-service/index.js:69-73 | the stored record carries the status and the amount, and no `message` |
| Payment.CreateOutcome | microservices/payment-service/index.js:49-82 | 400 iff orderId or amount is falsy (0 included); 500 "Failed to process payment" with the thrown message iff the breaker throws; otherwise 201 with the request data, "USD" and "credit_card" defaults, the request time, status "success" with a `txn_` id when the gateway answered, and "pending" with a `fallback_` id when the breaker fell back |
| Payment.FindPayment | microservices/payment-service/index.js:87 | the lookup yields the first record with the order id, and none exactly when no record has it |
| Payment.FindAfterAppend | microservices/payment-service/index.js:75-91 | an appended record is found only for an order id no older record has; every other answer is unchanged |
| Payment.PaymentService.constructor | microservices/payment-service/index.js:12 | the list starts empty |
| Payment.PaymentService.Create | microservices/payment-service/index.js:49-82 | answers as `CreateOutcome` and appends exactly the record it answers 201 with, and nothing otherwise |
| Payment.PaymentService.Get | microservices/payment-service/index.js:85-94 | 200 with the first record for the order, 404 "Payment not found" iff there is none |
| Shipping.RequestOf | microservices/shipping-service/index.js:74 | the handler reads `orderId`, `address` and `items` from the body |
| Shipping.Dispatch | microservices/shipping-service/index.js:43-47 | the provider's answer has a `TRK` tracking number from the clock, the given delivery date and carrier "Express Shipping" |
| Shipping.Fallback | microservices/shipping-service/index.js:54-59 | the breaker's fallback has a `PENDING-` tracking number, "Pending" delivery and carrier, and the "processed later" message |
| Shipping.Retried | microservices/shipping-service/index.js:89-91 | a rejected retry carries the last attempt's thrown error; an attempt that does not throw decides the result |
| Shipping.FireProvider | microservices/shipping-service/index.js:89-91 | the breaker call rejects exactly when it throws; otherwise it yields the provider's answer or the "Pending" fallback |
| Shipping.RetriedOutcome | microservices/shipping-service/index.js:89-91 | the retried call resolves iff one of its four attempts does not throw, and then with the first such attempt's answer; otherwise it rejects with the last error |
| Shipping.CreateOutcome | microservices/shipping-service/index.js:72-109 | 400 iff orderId, address or items is falsy; 500 "Failed to create shipment" with the last error's message iff all four attempts throw; otherwise 201 with the request's fields, status "PROCESSING" and the tracking data of the first attempt that did not throw |
| Shipping.FindShipment | microservices/shipping-service/index.js:113 | the lookup yields the first shipment with the order id, and none exactly when no shipment has it |
| Shipping.FindAfterAppend | microservices/shipping-service/index.js:102-117 | an appended shipment is found only for an order id no older shipment has |
| Shipping.Restatus | microservices/shipping-service/index.js:143-145 | the status change sets only `status` and `updatedAt` of one shipment and keeps the list's length and every other shipment |
| Shipping.IsValidStatus | microservices/shipping-service/index.js:138-139 | a status is valid iff it is one of the five strings; a non-string never is |
| Shipping.FindShipmentSameIds | microservices/shipping-service/index.js:131 | lists with the same order ids in the same places answer every lookup alike |
| Shipping.FindAfterRestatus | microservices/shipping-service/index.js:131-147 | after a status change every lookup lands where it did, and the changed order's shipment has the new status |
| Shipping.ShippingService.constructor | microservices/shipping-service/index.js:24 | the list starts empty |
| Shipping.ShippingService.Create | microservices/shipping-service/index.js:72-109 | answers as `CreateOutcome` and appends exactly the shipment it answers 201 with, and nothing otherwise |
| Shipping.ShippingService.Get | microservices/shipping-service/index.js:111-120 | 200 with the first shipment for the order, 404 "Shipment not found" iff there is none |
| Shipping.ShippingService.UpdateStatus | microservices/shipping-service/index.js:122-151 | checks run in order: missing status gives 400, unknown order 404, a status outside the five gives 400 "Invalid status" with the list; only a valid status on a known order changes the list, and only the first matching shipment's status and update time |
| Gateway.TimeoutServiceCall | microservices/api-gateway/index.js:73-82 | a value passes through; a `TimeoutError` becomes "Service request timed out"; any other error is rethrown unchanged |
| Gateway.Guard | microservices/api-gateway/index.js:91-93 | a guarded call rejects iff the breaker throws; otherwise it yields the reply or the fallback object |
| Gateway.FallbackObject | microservices/api-gateway/index.js:65-67 | each gateway fallback is an object with only an `error` property |
| Gateway.ProxyCall | microservices/api-gateway/index.js:87-92 | a proxy forwards to its prefix plus the sub-path with the lower-cased method, and sends the body iff the method is not "get" |
| Gateway.ProxyGetHasNoBody | microservices/api-gateway/index.js:87-89 | "GET" and "Get" are forwarded without a body, "POST" with it |
| Gateway.ProxyResponse | microservices/api-gateway/index.js:85-100 | 200 with the reply or the fallback object, 503 with "<Service> service error" and the mapped message iff the breaker throws |
| Gateway.ItemsJson | microservices/api-gateway/index.js:181-184 | the update request's items are one `{productId, quantity}` object per requested item, in order |
| Gateway.PaymentCall | microservices/api-gateway/index.js:164-171 | the payment request carries the order id and the total, a NaN total being sent as `null`, and forwards the order's `currency` and `method`, each dropped when the order has none |
| Gateway.ShippingCall | microservices/api-gateway/index.js:189-195 | the shipping request carries the order id, the address and the items |
| Gateway.Contribution | microservices/api-gateway/index.js:160-161 | an item adds NaN only when it has no quantity or some entry has no price |
| Gateway.ContributionOfFind | microservices/api-gateway/index.js:160-161 | an item adds its quantity times the price of the entry `find` returns for its product, or 0 when `find` returns nothing |
| Gateway.ContributionCases | microservices/api-gateway/index.js:160-161 | an item adds NaN iff the first entry for its product has no price or the item has no quantity, and adds 0 when no entry has its product |
| Gateway.TotalAmount | microservices/api-gateway/index.js:159-162 | the total is a number iff every item's contribution is |
| Gateway.TotalNaNIff | microservices/api-gateway/index.js:159-162 | the total is NaN iff some item's contribution is |
| Gateway.TotalOfUnmatched | microservices/api-gateway/index.js:159-162 | items with no matching entry contribute 0, so the total is 0 |
| Gateway.PaymentVerdict | microservices/api-gateway/index.js:173 | only an object reply lets the order through, and one whose status is "success" always does; reading a reply throws only the two `TypeError`s |
| Gateway.PaymentVerdictCases | microservices/api-gateway/index.js:173 | the workflow goes on iff the reply's status is "success" or its message includes "later"; reading the reply throws when it is null or when the message has no `includes` |
| Gateway.LaterMessageProceeds | microservices/api-gateway/index.js:173 | a message containing "later" lets the workflow go on whatever the status |
| Gateway.UnavailableEntries | microservices/api-gateway/index.js:153 | the details are exactly the entries marked unavailable, each as many times as the reply has it |
| Gateway.UnavailableEntriesInOrder | microservices/api-gateway/index.js:153 | the details keep the reply's order: a split reply gives the concatenation of its parts' details, and one entry gives itself or nothing |
| Gateway.Fulfil | microservices/api-gateway/index.js:177-205 | steps 3 and 4 start with the update call, make at most the shipping call after it, and end in 201 or in 500 "Failed to process order" |
| Gateway.AfterPayment | microservices/api-gateway/index.js:173-205 | a reply that does not let the order through makes no further call; a declining reply gives 400 "Payment failed" with the reply |
| Gateway.PayAndFulfil | microservices/api-gateway/index.js:157-205 | steps 2 to 4 start with the payment call carrying the total over the check entries and make at most three calls |
| Gateway.AfterCheck | microservices/api-gateway/index.js:150-205 | a check reply that is not `available` makes no further call; the 400 with the unavailable entries comes exactly when the reply is not available and has entries |
| Gateway.Workflow | microservices/api-gateway/index.js:137-210 | an order is refused with 400 iff a field is missing, and then before any call; otherwise the first call is the inventory check and at most four calls are made |
| Gateway.AfterCheckCalls | microservices/api-gateway/index.js:157-195 | after the check, the calls made are the planned payment, update and shipping calls, in that order |
| Gateway.FulfilCases | microservices/api-gateway/index.js:177-205 | the update's reply is never inspected: only a thrown error stops the shipment; success is 201 with the check entries and the payment and shipping replies verbatim |
| Gateway.PayAndFulfilCases | microservices/api-gateway/index.js:157-205 | the payment is requested with the total over the check entries; a declining reply gives 400 "Payment failed" with the reply, before any update |
| Gateway.WorkflowCalls | microservices/api-gateway/index.js:137-210 | the calls of a valid order are a prefix of check, payment, update, shipment, in that order |
| Gateway.WorkflowCallCount | microservices/api-gateway/index.js:137-210 | each call is made exactly when every earlier step let the order through |
| Gateway.WorkflowResponses | microservices/api-gateway/index.js:137-210 | 400 for missing fields; 400 with the unavailable entries after the check; 400 "Payment failed"; 201 "CREATED" with the check entries and the replies verbatim; 500 for anything thrown |
| Gateway.ProcessOrder | microservices/api-gateway/index.js:137-156 | the handler's validation and step 1 give the response and calls that `Workflow` gives |
| Gateway.ActOnCheck | microservices/api-gateway/index.js:150-156 | the handler's reading of the check reply gives what `AfterCheck` gives |
| Gateway.ProcessPayment | microservices/api-gateway/index.js:157-171 | the total and the payment step give what `PayAndFulfil` gives |
| Gateway.ActOnPayment | microservices/api-gateway/index.js:173-175 | the handler's reading of the payment reply gives what `AfterPayment` gives |
| Gateway.UpdateAndShip | microservices/api-gateway/index.js:177-205 | steps 3 and 4 give what `Fulfil` gives |
| Gateway.Aggregate | microservices/api-gateway/index.js:229-239 | one status per probe, in order, a rejected probe counting as "DOWN"; the status is "UP" iff every service is up, else "PARTIAL"; the gateway is always "UP" |
| Gateway.HealthOfServices | microservices/api-gateway/index.js:215-239 | with the three services probed, the status is "UP" iff all three answered, and each service is named in order |
| Composition.PricelessContribution | microservices/api-gateway/index.js:160-161 | an item whose product has an entry adds NaN when no entry has a price |
| Composition.CheckedTotalIsNaN | microservices/api-gateway/index.js:159-162 | over the check's own entries the total of every nonempty order is NaN |
| Composition.PaymentRequestOf | microservices/api-gateway/index.js:165-170 | the payment service reads back the order id and the serialised total the gateway sent, and its `currency` and `method` exactly as the order had them |
| Composition.PaymentDefaultsOfOrder | microservices/payment-service/index.js:51-73 | a stored payment has the order's own currency and method, and "USD" and "credit_card" only when the order has none |
| Composition.FalsyTotalIsRefused | microservices/payment-service/index.js:53-55 | a NaN total (sent as null) or a zero total is refused with 400 whatever the breaker would do |
| Composition.NonzeroTotalPassesValidation | microservices/payment-service/index.js:53-55 | a nonzero total with an order id passes validation |
| Composition.RecordVerdict | microservices/payment-service/index.js:69-73 | a stored payment lets an order through iff its status is "success" |
| Composition.PendingPaymentDeclines | microservices/payment-service/index.js:42-46 | the "pending" payment stored on the breaker's fallback declines the order |
| Composition.PaymentFallbackDeclines | microservices/api-gateway/index.js:65 | the gateway's payment fallback object declines the order |
| Composition.CheckedOrderFailsPayment | microservices/api-gateway/index.js:146-175 | a nonempty order cleared by the real check ends, under the hypothesis that the payment breaker falls back, in 400 "Payment failed" after two calls, the payment having been sent a null amount |
| RetryServiceB.Step | retry/service-b/index.js:10-16 | a request increments the counter, fails iff the result is not a multiple of 5, and resets it to 0 on success, so it stays in 0..4 |
| RetryServiceB.FreshRun | retry/service-b/index.js:5-18 | from a fresh start the counter is n mod 5, and requests 1 to 4 of every five fail |
| RetryServiceB.ServiceB.constructor | retry/service-b/index.js:5 | the counter starts at 0 |
| RetryServiceB.ServiceB.Handle | retry/service-b/index.js:9-18 | the handler answers 500 "Service B failed, please retry" iff the incremented counter is not a multiple of 5, else 200, and keeps the counter in 0..4 |
| BreakerServiceB.Step | circuit-breaker/service-b/index.js:10-15 | a request fails iff the counter is 5, resetting it to 0; otherwise it increments, so it stays in 0..5 |
| BreakerServiceB.FreshRun | circuit-breaker/service-b/index.js:5-17 | from a fresh start the counter is n mod 6, and every sixth request fails |
| BreakerServiceB.ServiceB.constructor | circuit-breaker/service-b/index.js:5 | the counter starts at 0 |
| BreakerServiceB.ServiceB.Handle | circuit-breaker/service-b/index.js:9-17 | the handler answers 500 "Service B failed intentionally" iff the counter was 5, else 200 "Hello from Service B", and keeps the counter in 0..5 |

## Left out

- The internals of `opossum`, `async-retry`, `promise-timeout` and `express-rate-limit` are not modelled: the breaker state machines, timers, backoff, `onRetry` logging and rate-limit windows. Each guarded call is an abstract outcome given as a parameter.
- The rate limiters of the gateway and the shipping service are left out; a rate-limited request never reaches the modelled handlers.
- `Math.random()` failure injection and simulated delays are inputs. So are `Date.now()` and ISO timestamps, generated order ids and tracking numbers, all as opaque strings.
- Shipping.CreateOutcome: the provider and its fallback read `Date.now()` once per attempt in the source; the model gives all four attempts one `clock` (and one `eta`), so a retried shipment's tracking number is the one of the attempt that answered, under that shared clock.
- `GET /api/inventory` (the whole table under a time limiter) is left out; it only returns the table or a 504.
- The `/health` handlers of the three back ends and the gateway's probe I/O are left out. The gateway's aggregation takes the settled probes as input.
- Express routing, axios, JSON parsing and `app.listen` are left out.
- The service-a files, rate-limited/service-b, time-limited/service-b and microservices/test-fault-tolerance.js are not part of this model.
- Concurrent requests interleaving at `await` points are left out; the model runs one request at a time.
- Inventory.InventoryService.Check: items are modelled with an optional string id and an optional integer quantity. An absent `items` (`None`) stands for both an absent and a non-array `items`, which the source answers with the same 400. Non-integer, non-numeric or non-string values are not modelled, nor is a `null` item, which throws and gives 500.
- Inventory.InventoryService.Update: the same item shape as the check. A non-array `items` is modelled as absent. `orderId` is an optional string: a truthy non-string `orderId`, such as a number, which the source accepts and echoes back, is not modelled (the gateway always sends a string).
- Gateway.ProcessOrder: `items` is absent or an array of such items. A truthy non-array `items` is not modelled.
- Gateway.ShippingCall: the gateway sends each item as it received it to the check and to the shipping service, extra properties included, while the update call cuts it to `productId` and `quantity`. Items are modelled with those two properties only, so that difference is not visible in the model.
- Gateway.ProcessOrder: the `TypeError` messages the handler can raise are fixed V8 strings.
- Gateway.ProxyCall: `toLowerCase` is modelled on ASCII letters only.
- Inventory.NegativeQuantityRestocks: stated for a table with distinct ids and nonnegative stock, the shape the service's table has.
- Numbers are integers or NaN. Fractional amounts and quantities, and floating-point rounding in the total, are not modelled.

/** The inventory service: an in-memory product table, a read-only
    availability check, a non-atomic stock update run under a retry wrapper,
    and a lookup by product id. */
module Inventory {
  import opened Js
  import opened Wire

  datatype Product = Product(id: string, name: string, quantity: int, price: int)

  /** The table the service starts with. */
  function InitialInventory(): seq<Product>
  {
    [ Product("prod-001", "Laptop", 10, 1200),
      Product("prod-002", "Smartphone", 15, 800),
      Product("prod-003", "Headphones", 20, 100) ]
  }

  ghost predicate DistinctIds(inv: seq<Product>)
  {
    forall i, j :: 0 <= i < j < |inv| ==> inv[i].id != inv[j].id
  }

  /** `inventory.find(i => i.id === id)`, as an index into the table. */
  function FindProduct(inv: seq<Product>, id: string): (r: Option<nat>)
    ensures r.Some? ==> r.value < |inv| && inv[r.value].id == id
    ensures r.Some? ==> forall j :: 0 <= j < r.value ==> inv[j].id != id
    ensures r.None? <==> forall j :: 0 <= j < |inv| ==> inv[j].id != id
  {
    FirstIndex(inv, (p: Product) => p.id == id)
  }

  /** Two tables with the same ids in the same order answer every lookup alike. */
  lemma FindProductSameIds(a: seq<Product>, b: seq<Product>, id: string)
    requires |a| == |b|
    requires forall j :: 0 <= j < |a| ==> a[j].id == b[j].id
    ensures FindProduct(a, id) == FindProduct(b, id)
  {
    var ra, rb := FindProduct(a, id), FindProduct(b, id);
    if ra.Some? {
      assert b[ra.value].id == id;
    }
    if rb.Some? {
      assert a[rb.value].id == id;
    }
  }

  const ItemsRequired := "Items array is required"
  const ItemFieldsRequired := "Product ID and quantity are required for each item"
  const ProductNotFound := "Product not found"

  // ---------------------------------------------------------------- check

  /** The reply of `POST /api/inventory/check`. */
  datatype CheckResult =
    | Checked(available: bool, entries: seq<CheckEntry>)
    | CheckRejected(error: string)  // 400

  /** The entry the check records for one validated item: judged against the
      first row with the item's id, never against a price. */
  function EntryFor(inv: seq<Product>, item: Item): (e: CheckEntry)
    requires HasFields(item)
    ensures e.productId == item.productId.value && e.price.None?
    ensures e.message.Some? <==> forall j :: 0 <= j < |inv| ==> inv[j].id != e.productId
    ensures e.message.Some? ==> e.message == Some(ProductNotFound)
    ensures e.message.Some? ==> !e.available && e.name.None? && e.requested.None? && e.inStock.None?
    ensures e.message.None? ==>
      exists j :: 0 <= j < |inv| && inv[j].id == e.productId
        && (forall i :: 0 <= i < j ==> inv[i].id != e.productId)
        && e.name == Some(inv[j].name) && e.requested == item.quantity
        && e.inStock == Some(inv[j].quantity)
        && (e.available <==> inv[j].quantity >= item.quantity.value)
  {
    var pid := item.productId.value;
    match FindProduct(inv, pid)
    case None => CheckEntry(pid, None, None, false, None, None, Some(ProductNotFound))
    case Some(j) =>
      CheckEntry(pid, Some(inv[j].name), item.quantity, inv[j].quantity >= item.quantity.value,
                 Some(inv[j].quantity), None, None)
  }

  /** Two requests for the same product are each judged against the same,
      unchanged stock: their combined demand may exceed the stock and both
      still pass, while the update then refuses the second one. */
  lemma CheckAdmitsDuplicateDemand(inv: seq<Product>, pid: string, q: int)
    requires DistinctIds(inv) && pid != ""
    requires FindProduct(inv, pid).Some?
    requires 0 < q <= inv[FindProduct(inv, pid).value].quantity < 2 * q
    ensures var item := Item(Some(pid), Some(q));
      EntryFor(inv, item).available && RunLoop(inv, [item, item]).outcome.Aborted?
  {
    var item := Item(Some(pid), Some(q));
    var items := [item, item];
    RunLoopEffect(inv, items);
    assert items[..1] == [item];
    assert Demand(items[..1], pid) == q by {
      assert items[..1][..0] == [];
    }
    assert !Admits(inv, items, 1);
  }

  // ---------------------------------------------------------------- update

  /** What one successful pass of the update loop reports for an item. */
  datatype UpdatedItem = UpdatedItem(productId: string, name: string, quantityReduced: int, newQuantity: int)

  /** Why an attempt of the update threw. */
  datatype Failure = MissingFields | UnknownProduct(id: string) | Insufficient(id: string) | DatabaseError

  /** The message of the error thrown for each failure. */
  function Message(f: Failure): string
  {
    match f
    case MissingFields => ItemFieldsRequired
    case UnknownProduct(id) => "Product " + id + " not found"
    case Insufficient(id) => "Insufficient quantity for product " + id
    case DatabaseError => "Database update error"
  }

  datatype LoopOutcome = Done(updated: seq<UpdatedItem>) | Aborted(failure: Failure)

  /** The table after an attempt of the update loop, and how the attempt ended. */
  datatype Attempt = Attempt(inventory: seq<Product>, outcome: LoopOutcome)

  /** One iteration of the update loop on one item. */
  function UpdateStep(inv: seq<Product>, item: Item): (r: Attempt)
    ensures |r.inventory| == |inv|
    ensures r.outcome.Aborted? ==> r.inventory == inv
    ensures r.outcome.Done? ==>
      HasFields(item) && |r.outcome.updated| == 1 && r.outcome.updated[0].quantityReduced == item.quantity.value
  {
    if !HasFields(item) then Attempt(inv, Aborted(MissingFields))
    else
      var pid, q := item.productId.value, item.quantity.value;
      match FindProduct(inv, pid)
      case None => Attempt(inv, Aborted(UnknownProduct(pid)))
      case Some(j) =>
        if inv[j].quantity < q then Attempt(inv, Aborted(Insufficient(pid)))
        else
          var row := inv[j].(quantity := inv[j].quantity - q);
          Attempt(inv[j := row], Done([UpdatedItem(pid, row.name, q, row.quantity)]))
  }

  /** The update loop over `items`, in order, stopping at the first item that
      throws and keeping what the items before it changed. */
  function RunLoop(inv: seq<Product>, items: seq<Item>): (r: Attempt)
    ensures |r.inventory| == |inv|
    ensures r.outcome.Done? ==> |r.outcome.updated| == |items|
    decreases |items|
  {
    if items == [] then Attempt(inv, Done([]))
    else Next(RunLoop(inv, items[..|items| - 1]), items[|items| - 1])
  }

  /** The loop after the items before `item` ended as `prev`: a thrown error
      skips `item`; otherwise `item` is processed on the table `prev` left. */
  function Next(prev: Attempt, item: Item): Attempt
  {
    if prev.outcome.Aborted? then prev
    else
      var step := UpdateStep(prev.inventory, item);
      if step.outcome.Aborted? then step
      else Attempt(step.inventory, Done(prev.outcome.updated + step.outcome.updated))
  }

  /** The loop over one more item of `items` is one more `Next`. */
  lemma RunLoopNext(inv: seq<Product>, items: seq<Item>, i: int)
    requires 0 <= i < |items|
    ensures RunLoop(inv, items[..i + 1]) == Next(RunLoop(inv, items[..i]), items[i])
  {
    assert items[..i + 1][..i] == items[..i];
  }

  /** Sum of the quantities requested for product `id`. */
  function Demand(items: seq<Item>, id: string): int
    decreases |items|
  {
    if items == [] then 0
    else
      var last := items[|items| - 1];
      Demand(items[..|items| - 1], id)
        + if last.productId == Some(id) && last.quantity.Some? then last.quantity.value else 0
  }

  /** The table with every row's stock reduced by its total demand in `items`. */
  function Decremented(inv: seq<Product>, items: seq<Item>): (r: seq<Product>)
    ensures |r| == |inv|
    ensures forall j :: 0 <= j < |inv| ==>
      r[j] == inv[j].(quantity := inv[j].quantity - Demand(items, inv[j].id))
  {
    seq(|inv|, j requires 0 <= j < |inv| => inv[j].(quantity := inv[j].quantity - Demand(items, inv[j].id)))
  }

  /** Item `k` passes the loop's three tests when it is reached: it has both
      fields, its product exists, and the stock left after the items before it
      covers the quantity. */
  ghost predicate Admits(inv: seq<Product>, items: seq<Item>, k: int)
    requires 0 <= k < |items|
  {
    && HasFields(items[k])
    && var pid := items[k].productId.value;
    && FindProduct(inv, pid).Some?
    && inv[FindProduct(inv, pid).value].quantity - Demand(items[..k], pid) >= items[k].quantity.value
  }

  /** The error the loop throws on item `k` when `k` does not pass: missing
      fields first, then an unknown product, else too little stock. */
  ghost function FailureAt(inv: seq<Product>, items: seq<Item>, k: int): Failure
    requires 0 <= k < |items|
  {
    if !HasFields(items[k]) then MissingFields
    else
      var pid := items[k].productId.value;
      if FindProduct(inv, pid).None? then UnknownProduct(pid) else Insufficient(pid)
  }

  /** Item `k` is the first one the loop throws on. */
  ghost predicate FailsFirstAt(inv: seq<Product>, items: seq<Item>, k: int)
  {
    0 <= k < |items| && (forall i :: 0 <= i < k ==> Admits(inv, items, i)) && !Admits(inv, items, k)
  }

  lemma DemandOfPrefix(items: seq<Item>, k: int, id: string)
    requires 0 <= k < |items|
    ensures Demand(items[..k + 1], id) == Demand(items[..k], id)
      + if items[k].productId == Some(id) && items[k].quantity.Some? then items[k].quantity.value else 0
  {
    assert items[..k + 1][..k] == items[..k];
  }

  /** Whether an item passes depends only on the items before it. */
  lemma AdmitsOfPrefix(inv: seq<Product>, items: seq<Item>, m: int)
    requires 0 <= m <= |items|
    ensures forall i :: 0 <= i < m ==> (Admits(inv, items[..m], i) <==> Admits(inv, items, i))
  {
    forall i | 0 <= i < m
      ensures Admits(inv, items[..m], i) <==> Admits(inv, items, i)
    {
      assert items[..m][..i] == items[..i];
    }
  }

  /** The last item, run on the table the earlier items left, passes exactly
      when it is admitted, and then leaves the table reduced by the whole demand. */
  lemma LastStep(inv: seq<Product>, items: seq<Item>)
    requires DistinctIds(inv) && items != []
    ensures var n := |items|;
      var step := UpdateStep(Decremented(inv, items[..n - 1]), items[n - 1]);
      && (step.outcome.Done? <==> Admits(inv, items, n - 1))
      && (step.outcome.Done? ==> step.inventory == Decremented(inv, items) && |step.outcome.updated| == 1)
      && (step.outcome.Aborted? ==> step.inventory == Decremented(inv, items[..n - 1]))
  {
    var n := |items|;
    var pre, last := items[..n - 1], items[n - 1];
    var dec := Decremented(inv, pre);
    if HasFields(last) {
      var pid := last.productId.value;
      FindProductSameIds(inv, dec, pid);
      var step := UpdateStep(dec, last);
      if step.outcome.Done? {
        var j := FindProduct(inv, pid).value;
        forall i | 0 <= i < |inv|
          ensures step.inventory[i] == Decremented(inv, items)[i]
        {
          DemandOfPrefix(items, n - 1, inv[i].id);
          if i != j {
            assert inv[i].id != inv[j].id;
          }
        }
      }
    }
  }

  /** The last item, run on the table the earlier items left, throws the
      error `FailureAt` names. */
  lemma LastFailure(inv: seq<Product>, items: seq<Item>)
    requires items != []
    ensures var n := |items|;
      var step := UpdateStep(Decremented(inv, items[..n - 1]), items[n - 1]);
      step.outcome.Aborted? ==> step.outcome.failure == FailureAt(inv, items, n - 1)
  {
    var n := |items|;
    if HasFields(items[n - 1]) {
      FindProductSameIds(inv, Decremented(inv, items[..n - 1]), items[n - 1].productId.value);
    }
  }

  /** The first item to throw among a prefix is the first to throw overall. */
  lemma FailsFirstAtOfPrefix(inv: seq<Product>, items: seq<Item>, m: int, k: int)
    requires 0 <= m <= |items|
    requires FailsFirstAt(inv, items[..m], k)
    ensures FailsFirstAt(inv, items, k)
  {
    AdmitsOfPrefix(inv, items, m);
  }

  /** The inductive step of `RunLoopEffect` when the earlier items already threw at `k`. */
  lemma EffectAfterRejectedPrefix(inv: seq<Product>, items: seq<Item>, k: int)
    requires items != []
    requires var pre := items[..|items| - 1]; var prev := RunLoop(inv, pre);
      && prev.outcome.Aborted? && FailsFirstAt(inv, pre, k) && prev.inventory == Decremented(inv, pre[..k])
      && prev.outcome.failure == FailureAt(inv, pre, k)
    ensures var r := RunLoop(inv, items);
      && r.outcome.Aborted? && FailsFirstAt(inv, items, k) && r.inventory == Decremented(inv, items[..k])
      && r.outcome.failure == FailureAt(inv, items, k)
  {
    var pre := items[..|items| - 1];
    assert RunLoop(inv, items) == RunLoop(inv, pre);
    FailsFirstAtOfPrefix(inv, items, |items| - 1, k);
    assert pre[..k] == items[..k];
  }

  /** The inductive step of `RunLoopEffect` when the earlier items all passed. */
  lemma EffectAfterResolvedPrefix(inv: seq<Product>, items: seq<Item>)
    requires DistinctIds(inv) && items != []
    requires var pre := items[..|items| - 1]; var prev := RunLoop(inv, pre);
      && prev.outcome.Done? && prev.inventory == Decremented(inv, pre) && |prev.outcome.updated| == |pre|
      && forall k :: 0 <= k < |pre| ==> Admits(inv, pre, k)
    ensures var r := RunLoop(inv, items);
      r.outcome.Done? <==> forall k :: 0 <= k < |items| ==> Admits(inv, items, k)
    ensures var r := RunLoop(inv, items);
      r.outcome.Done? ==> r.inventory == Decremented(inv, items) && |r.outcome.updated| == |items|
    ensures var r := RunLoop(inv, items);
      r.outcome.Aborted? ==>
        exists k :: FailsFirstAt(inv, items, k) && r.inventory == Decremented(inv, items[..k])
          && r.outcome.failure == FailureAt(inv, items, k)
  {
    var n := |items|;
    var pre := items[..n - 1];
    AdmitsOfPrefix(inv, items, n - 1);
    LastStep(inv, items);
    LastFailure(inv, items);
    var step := UpdateStep(Decremented(inv, pre), items[n - 1]);
    if Admits(inv, items, n - 1) {
      assert step.outcome.Done?;
      forall k | 0 <= k < n
        ensures Admits(inv, items, k)
      {
        if k < n - 1 {
          assert Admits(inv, pre, k);
        }
      }
    } else {
      assert step.outcome.Aborted?;
      assert FailsFirstAt(inv, items, n - 1);
    }
  }

  /** The update loop succeeds exactly when every item passes its tests in
      turn, and then each product's stock drops by exactly its total demand;
      when it throws at item `k`, the items before `k` stay applied. Names,
      ids and prices never change. */
  lemma {:induction false} RunLoopEffect(inv: seq<Product>, items: seq<Item>)
    requires DistinctIds(inv)
    ensures var r := RunLoop(inv, items);
      r.outcome.Done? <==> forall k :: 0 <= k < |items| ==> Admits(inv, items, k)
    ensures var r := RunLoop(inv, items);
      r.outcome.Done? ==> r.inventory == Decremented(inv, items) && |r.outcome.updated| == |items|
    ensures var r := RunLoop(inv, items);
      r.outcome.Aborted? ==>
        exists k :: FailsFirstAt(inv, items, k) && r.inventory == Decremented(inv, items[..k])
          && r.outcome.failure == FailureAt(inv, items, k)
    decreases |items|
  {
    if items == [] {
      assert Decremented(inv, items) == inv;
    } else {
      var pre := items[..|items| - 1];
      RunLoopEffect(inv, pre);
      if RunLoop(inv, pre).outcome.Aborted? {
        var k :| FailsFirstAt(inv, pre, k) && RunLoop(inv, pre).inventory == Decremented(inv, pre[..k])
          && RunLoop(inv, pre).outcome.failure == FailureAt(inv, pre, k);
        EffectAfterRejectedPrefix(inv, items, k);
      } else {
        EffectAfterResolvedPrefix(inv, items);
      }
    }
  }

  /** Once an item throws, the items after it are never reached. */
  lemma {:induction false} RejectionIsFinal(inv: seq<Product>, items: seq<Item>, k: int)
    requires 0 <= k <= |items|
    requires RunLoop(inv, items[..k]).outcome.Aborted?
    ensures RunLoop(inv, items) == RunLoop(inv, items[..k])
    decreases |items| - k
  {
    if k < |items| {
      var pre := items[..|items| - 1];
      assert pre[..k] == items[..k];
      RejectionIsFinal(inv, pre, k);
    } else {
      assert items[..k] == items;
    }
  }

  /** What a successful loop reports for item `k`: the quantity it took and
      the stock left once it and every item before it were applied. */
  ghost function Report(inv: seq<Product>, items: seq<Item>, k: int): UpdatedItem
    requires 0 <= k < |items| && Admits(inv, items, k)
  {
    var pid := items[k].productId.value;
    var row := inv[FindProduct(inv, pid).value];
    UpdatedItem(pid, row.name, items[k].quantity.value, row.quantity - Demand(items[..k + 1], pid))
  }

  /** The last item, once admitted, reports its own entry. */
  lemma LastReport(inv: seq<Product>, items: seq<Item>)
    requires DistinctIds(inv) && items != [] && Admits(inv, items, |items| - 1)
    ensures var n := |items|;
      UpdateStep(Decremented(inv, items[..n - 1]), items[n - 1]).outcome == Done([Report(inv, items, n - 1)])
  {
    var n := |items|;
    var pre, last := items[..n - 1], items[n - 1];
    var pid := last.productId.value;
    FindProductSameIds(inv, Decremented(inv, pre), pid);
    DemandOfPrefix(items, n - 1, pid);
    assert items[..n] == items;
  }

  /** An item's report depends only on the items up to it. */
  lemma ReportOfPrefix(inv: seq<Product>, items: seq<Item>, m: int, k: int)
    requires 0 <= k < m <= |items|
    requires Admits(inv, items[..m], k) && Admits(inv, items, k)
    ensures Report(inv, items[..m], k) == Report(inv, items, k)
  {
    assert items[..m][..k + 1] == items[..k + 1];
  }

  /** When every item passes, the loop reports one entry per item, in order,
      each with the quantity taken and the product's stock right after it. */
  lemma {:induction false} RunLoopReports(inv: seq<Product>, items: seq<Item>)
    requires DistinctIds(inv)
    requires forall k :: 0 <= k < |items| ==> Admits(inv, items, k)
    ensures var r := RunLoop(inv, items);
      && r.outcome.Done? && |r.outcome.updated| == |items|
      && forall k :: 0 <= k < |items| ==> r.outcome.updated[k] == Report(inv, items, k)
    decreases |items|
  {
    if items != [] {
      var n := |items|;
      var pre := items[..n - 1];
      AdmitsOfPrefix(inv, items, n - 1);
      RunLoopReports(inv, pre);
      RunLoopEffect(inv, pre);
      LastReport(inv, items);
      var prev := RunLoop(inv, pre);
      var last := Report(inv, items, n - 1);
      assert UpdateStep(prev.inventory, items[n - 1]).outcome == Done([last]);
      var r := RunLoop(inv, items);
      assert r.outcome.updated == prev.outcome.updated + [last];
      forall k | 0 <= k < n
        ensures r.outcome.updated[k] == Report(inv, items, k)
      {
        if k < n - 1 {
          assert r.outcome.updated[k] == Report(inv, pre, k);
          ReportOfPrefix(inv, items, n - 1, k);
        } else {
          assert r.outcome.updated[k] == last;
        }
      }
    }
  }

  /** A negative quantity passes the loop's tests and raises the stock. */
  lemma NegativeQuantityRestocks(inv: seq<Product>, pid: string, q: int)
    requires DistinctIds(inv) && pid != ""
    requires FindProduct(inv, pid).Some? && inv[FindProduct(inv, pid).value].quantity >= 0
    requires q < 0
    ensures var r := RunLoop(inv, [Item(Some(pid), Some(q))]);
      var j := FindProduct(inv, pid).value;
      && r.outcome.Done?
      && |r.inventory| == |inv|
      && r.inventory[j].quantity == inv[j].quantity - q > inv[j].quantity
  {
    var items := [Item(Some(pid), Some(q))];
    var j := FindProduct(inv, pid).value;
    assert items[..0] == [];
    assert Demand(items, pid) == q by {
      assert items[..|items| - 1] == [];
    }
    assert Admits(inv, items, 0);
    RunLoopEffect(inv, items);
    assert Decremented(inv, items)[j].quantity == inv[j].quantity - q;
  }

  /** Number of attempts the retry wrapper makes: the first, then `retries: 3`. */
  const RetryAttempts := 4

  /** Whether the simulated random failure fires on attempt `i`; an index past
      the end of `faults` does not fire. */
  predicate Faulty(faults: seq<bool>, i: nat)
  {
    i < |faults| && faults[i]
  }

  function Tail(faults: seq<bool>): (r: seq<bool>)
    ensures forall i: nat :: Faulty(r, i) == Faulty(faults, i + 1)
  {
    if faults == [] then [] else faults[1..]
  }

  /** One attempt of the retried update: the injected failure, else the loop. */
  function UpdateAttempt(inv: seq<Product>, items: seq<Item>, fault: bool): Attempt
  {
    if fault then Attempt(inv, Aborted(DatabaseError)) else RunLoop(inv, items)
  }

  /** The retry wrapper around the update: attempts run one after another on
      the table the previous attempt left, until one returns or `left` runs out. */
  function RetriedUpdate(inv: seq<Product>, items: seq<Item>, faults: seq<bool>, left: nat): (r: Attempt)
    requires left >= 1
    ensures |r.inventory| == |inv|
    ensures r.outcome.Done? ==> |r.outcome.updated| == |items|
    ensures (forall i: nat :: i < left ==> Faulty(faults, i)) ==> r.outcome == Aborted(DatabaseError)
    decreases left
  {
    var a := UpdateAttempt(inv, items, Faulty(faults, 0));
    if a.outcome.Done? || left == 1 then a else RetriedUpdate(a.inventory, items, Tail(faults), left - 1)
  }

  /** The table with `n` laptops in stock and the rest as at start. */
  function WithLaptops(n: int): seq<Product>
  {
    InitialInventory()[0 := Product("prod-001", "Laptop", n, 1200)]
  }

  const LaptopAndHeadphones := [Item(Some("prod-001"), Some(1)), Item(Some("prod-003"), Some(25))]

  /** Where the lookups of the two products of `LaptopAndHeadphones` land. */
  lemma WithLaptopsRows(n: int)
    ensures FindProduct(WithLaptops(n), "prod-001") == Some(0)
    ensures FindProduct(WithLaptops(n), "prod-003") == Some(2)
  {
    var inv := WithLaptops(n);
    assert "prod-001" != "prod-003" by { assert "prod-001"[7] != "prod-003"[7]; }
    assert "prod-002" != "prod-003" by { assert "prod-002"[7] != "prod-003"[7]; }
    assert inv[0].id == "prod-001" && inv[1].id == "prod-002" && inv[2].id == "prod-003";
  }

  /** The pass over the laptop alone takes one laptop. */
  lemma LaptopTaken(n: int)
    requires n >= 1
    ensures RunLoop(WithLaptops(n), LaptopAndHeadphones[..1])
      == Attempt(WithLaptops(n - 1), Done([UpdatedItem("prod-001", "Laptop", 1, n - 1)]))
  {
    var inv, items := WithLaptops(n), LaptopAndHeadphones;
    WithLaptopsRows(n);
    assert inv[0 := inv[0].(quantity := n - 1)] == WithLaptops(n - 1);
    assert UpdateStep(inv, items[0]) == Attempt(WithLaptops(n - 1), Done([UpdatedItem("prod-001", "Laptop", 1, n - 1)]));
    RunLoopNext(inv, items, 0);
    assert items[..0] == [];
  }

  /** One pass over one laptop and 25 headphones takes a laptop, then throws. */
  lemma LaptopTakenBeforeThrow(n: int)
    requires n >= 1
    ensures RunLoop(WithLaptops(n), LaptopAndHeadphones)
      == Attempt(WithLaptops(n - 1), Aborted(Insufficient("prod-003")))
  {
    var inv, items := WithLaptops(n), LaptopAndHeadphones;
    LaptopTaken(n);
    WithLaptopsRows(n - 1);
    assert UpdateStep(WithLaptops(n - 1), items[1]) == Attempt(WithLaptops(n - 1), Aborted(Insufficient("prod-003")));
    RunLoopNext(inv, items, 1);
    assert items[..2] == items;
  }

  /** The retry wrapper does not undo a failed attempt: with stock 10 of
      prod-001 and 20 of prod-003, an order of 1 and 25 fails four times and
      takes prod-001 down to 6. */
  lemma RetryDecrementsAgain()
    ensures var r := RetriedUpdate(InitialInventory(), LaptopAndHeadphones, [], RetryAttempts);
      && r.outcome == Aborted(Insufficient("prod-003"))
      && r.inventory == WithLaptops(6)
  {
    assert InitialInventory() == WithLaptops(10);
    LaptopTakenBeforeThrow(10);
    LaptopTakenBeforeThrow(9);
    LaptopTakenBeforeThrow(8);
    LaptopTakenBeforeThrow(7);
    var items := LaptopAndHeadphones;
    assert RetriedUpdate(WithLaptops(7), items, [], 1) == Attempt(WithLaptops(6), Aborted(Insufficient("prod-003")));
    assert RetriedUpdate(WithLaptops(8), items, [], 2) == RetriedUpdate(WithLaptops(7), items, [], 1);
    assert RetriedUpdate(WithLaptops(9), items, [], 3) == RetriedUpdate(WithLaptops(8), items, [], 2);
    assert RetriedUpdate(WithLaptops(10), items, [], 4) == RetriedUpdate(WithLaptops(9), items, [], 3);
  }

  datatype UpdateResponse =
    | UpdateRejected(error: string)                                         // 400
    | Updated(orderId: string, timestamp: string, updatedItems: seq<UpdatedItem>)
    | UpdateFailed(error: string, message: string)                          // 500

  const UpdateFieldsRequired := "Items array and order ID are required"

  // ---------------------------------------------------------------- lookup

  datatype Lookup = Found(product: Product) | LookupFailed(status: Option<int>, message: string)

  const LookupFault := "Database connection error"

  /** One attempt of the retried lookup by id. */
  function LookupAttempt(inv: seq<Product>, id: string, fault: bool): Lookup
  {
    if fault then LookupFailed(None, LookupFault)
    else
      match FindProduct(inv, id)
      case None => LookupFailed(Some(404), ProductNotFound)
      case Some(j) => Found(inv[j])
  }

  /** The retry wrapper around the lookup; a 404 is retried like any other error. */
  function RetriedLookup(inv: seq<Product>, id: string, faults: seq<bool>, left: nat): (r: Lookup)
    requires left >= 1
    ensures r.Found? ==> FindProduct(inv, id).Some? && r.product == inv[FindProduct(inv, id).value]
    ensures r.LookupFailed? ==> r.status.None? || r.status == Some(404)
    decreases left
  {
    var a := LookupAttempt(inv, id, Faulty(faults, 0));
    if a.Found? || left == 1 then a else RetriedLookup(inv, id, Tail(faults), left - 1)
  }

  datatype ProductResponse =
    | ProductOk(product: Product)
    | ProductError(status: int, error: string, message: string)

  /** The catch block's mapping `error.status || 500`. */
  function Respond(outcome: Lookup): (r: ProductResponse)
    ensures r.ProductOk? <==> outcome.Found?
    ensures r.ProductOk? ==> r.product == outcome.product
    ensures r.ProductError? ==> r.message == outcome.message && (r.error == ProductNotFound <==> r.status == 404)
    ensures outcome.LookupFailed? ==>
      r.status == if outcome.status.Some? && outcome.status.value != 0 then outcome.status.value else 500
  {
    match outcome
    case Found(p) => ProductOk(p)
    case LookupFailed(st, m) =>
      var code := if st.Some? && st.value != 0 then st.value else 500;
      ProductError(code, if code == 404 then ProductNotFound else "Failed to fetch product", m)
  }

  /** A retried lookup returns the first row with the id as soon as one attempt
      is not hit by a simulated failure; otherwise the last attempt's error
      decides: not found gives 404, the simulated failure gives 500. */
  lemma {:induction false} RetriedLookupOutcome(inv: seq<Product>, id: string, faults: seq<bool>, left: nat)
    requires left >= 1
    ensures var r := RetriedLookup(inv, id, faults, left);
      r.Found? <==> FindProduct(inv, id).Some? && exists i: nat :: i < left && !Faulty(faults, i)
    ensures var r := RetriedLookup(inv, id, faults, left);
      r.Found? ==> r.product == inv[FindProduct(inv, id).value]
    ensures var r := RetriedLookup(inv, id, faults, left);
      r.LookupFailed? ==>
        if Faulty(faults, left - 1) then r == LookupFailed(None, LookupFault)
        else r == LookupFailed(Some(404), ProductNotFound) && FindProduct(inv, id).None?
    decreases left
  {
    if left > 1 {
      RetriedLookupOutcome(inv, id, Tail(faults), left - 1);
      var r := RetriedLookup(inv, id, faults, left);
      if FindProduct(inv, id).Some? && !Faulty(faults, 0) {
        assert r.Found?;
      } else if FindProduct(inv, id).Some? {
        if exists i: nat :: i < left && !Faulty(faults, i) {
          var i: nat :| i < left && !Faulty(faults, i);
          assert i != 0 && !Faulty(Tail(faults), i - 1);
        }
        if exists i: nat :: i < left - 1 && !Faulty(Tail(faults), i) {
          var i: nat :| i < left - 1 && !Faulty(Tail(faults), i);
          assert !Faulty(faults, i + 1);
        }
      }
    } else {
      if exists i: nat :: i < left && !Faulty(faults, i) {
        var i: nat :| i < left && !Faulty(faults, i);
        assert i == 0;
      }
    }
  }

  /** The response of `GET /api/inventory/:productId`: 200 with the first row
      whose id matches, 404 "Product not found" when the last attempt found no
      such row, 500 "Failed to fetch product" when it hit the simulated failure. */
  lemma ProductResponseStatus(inv: seq<Product>, id: string, faults: seq<bool>)
    ensures var r := Respond(RetriedLookup(inv, id, faults, RetryAttempts));
      && (r.ProductOk? <==> FindProduct(inv, id).Some? && exists i: nat :: i < RetryAttempts && !Faulty(faults, i))
      && (r.ProductOk? ==> r.product.id == id)
      && (r.ProductError? ==> (r.status == 404 <==> !Faulty(faults, RetryAttempts - 1)))
      && (r.ProductError? && r.status == 404 ==> r.error == ProductNotFound && FindProduct(inv, id).None?)
      && (r.ProductError? && r.status != 404 ==> r.status == 500 && r.error == "Failed to fetch product")
  {
    RetriedLookupOutcome(inv, id, faults, RetryAttempts);
  }

  // ---------------------------------------------------------------- service

  /** The service's module-level table and its three handlers. */
  class InventoryService {
    var inventory: seq<Product>

    ghost predicate Valid()
      reads this
    {
      DistinctIds(inventory)
    }

    constructor ()
      ensures Valid() && inventory == InitialInventory()
    {
      inventory := InitialInventory();
    }

    /** `POST /api/inventory/check`: reads the table only. A missing or
        non-array `items` is `None`. */
    method Check(items: Option<seq<Item>>) returns (r: CheckResult)
      ensures r.CheckRejected? <==>
        items.None? || exists k :: 0 <= k < |items.value| && !HasFields(items.value[k])
      ensures items.None? ==> r == CheckRejected(ItemsRequired)
      ensures items.Some? && r.CheckRejected? ==> r == CheckRejected(ItemFieldsRequired)
      ensures r.Checked? ==> |r.entries| == |items.value|
      ensures r.Checked? ==> forall k :: 0 <= k < |r.entries| ==>
        HasFields(items.value[k]) && r.entries[k] == EntryFor(inventory, items.value[k])
      ensures r.Checked? ==> (r.available <==> forall k :: 0 <= k < |r.entries| ==> r.entries[k].available)
    {
      if items.None? {
        return CheckRejected(ItemsRequired);
      }
      var xs := items.value;
      var results: seq<CheckEntry> := [];
      var allAvailable := true;
      var i := 0;
      while i < |xs|
        invariant 0 <= i <= |xs| && |results| == i
        invariant forall k :: 0 <= k < i ==> HasFields(xs[k]) && results[k] == EntryFor(inventory, xs[k])
        invariant allAvailable <==> forall k :: 0 <= k < i ==> results[k].available
      {
        var item := xs[i];
        if !HasFields(item) {
          return CheckRejected(ItemFieldsRequired);
        }
        var pid, q := item.productId.value, item.quantity.value;
        var found := FindProduct(inventory, pid);
        if found.None? {
          results := results + [CheckEntry(pid, None, None, false, None, None, Some(ProductNotFound))];
          allAvailable := false;
        } else {
          var row := inventory[found.value];
          var isAvailable := row.quantity >= q;
          results := results + [CheckEntry(pid, Some(row.name), Some(q), isAvailable, Some(row.quantity), None, None)];
          if !isAvailable {
            allAvailable := false;
          }
        }
        i := i + 1;
      }
      r := Checked(allAvailable, results);
    }

    /** One attempt of the update loop, decrementing rows in place as it goes. */
    method RunAttempt(items: seq<Item>, fault: bool) returns (r: LoopOutcome)
      modifies this
      ensures Attempt(inventory, r) == UpdateAttempt(old(inventory), items, fault)
    {
      if fault {
        return Aborted(DatabaseError);
      }
      var updatedItems: seq<UpdatedItem> := [];
      var i := 0;
      while i < |items|
        invariant 0 <= i <= |items|
        invariant RunLoop(old(inventory), items[..i]) == Attempt(inventory, Done(updatedItems))
      {
        RunLoopNext(old(inventory), items, i);
        var item := items[i];
        if !HasFields(item) {
          RejectionIsFinal(old(inventory), items, i + 1);
          return Aborted(MissingFields);
        }
        var pid, q := item.productId.value, item.quantity.value;
        var found := FindProduct(inventory, pid);
        if found.None? {
          RejectionIsFinal(old(inventory), items, i + 1);
          return Aborted(UnknownProduct(pid));
        }
        var j := found.value;
        if inventory[j].quantity < q {
          RejectionIsFinal(old(inventory), items, i + 1);
          return Aborted(Insufficient(pid));
        }
        var row := inventory[j].(quantity := inventory[j].quantity - q);
        ghost var before := inventory;
        inventory := inventory[j := row];
        var entry := UpdatedItem(pid, row.name, q, row.quantity);
        assert UpdateStep(before, item) == Attempt(inventory, Done([entry]));
        updatedItems := updatedItems + [entry];
        i := i + 1;
      }
      assert items[..i] == items;
      r := Done(updatedItems);
    }

    /** `POST /api/inventory/update`: validates once, then retries the whole
        loop; a failed attempt's decrements are kept and the next attempt
        starts from them. */
    method Update(items: Option<seq<Item>>, orderId: Option<string>, faults: seq<bool>, timestamp: string)
      returns (r: UpdateResponse)
      requires Valid()
      modifies this
      ensures Valid()
      ensures items.None? || !TruthyString(orderId) ==>
        r == UpdateRejected(UpdateFieldsRequired) && inventory == old(inventory)
      ensures items.Some? && TruthyString(orderId) ==>
        var run := RetriedUpdate(old(inventory), items.value, faults, RetryAttempts);
        && inventory == run.inventory
        && r == match run.outcome
                case Done(updated) => Updated(orderId.value, timestamp, updated)
                case Aborted(f) => UpdateFailed("Failed to update inventory", Message(f))
    {
      if items.None? || !TruthyString(orderId) {
        return UpdateRejected(UpdateFieldsRequired);
      }
      var xs := items.value;
      var rest := faults;
      var left := RetryAttempts;
      ghost var start := inventory;
      var out := RunAttempt(xs, Faulty(rest, 0));
      KeepsIds(start, xs, Faulty(rest, 0));
      while out.Aborted? && left > 1
        invariant 1 <= left <= RetryAttempts
        invariant DistinctIds(inventory)
        invariant RetriedUpdate(start, xs, faults, RetryAttempts)
          == if out.Done? || left == 1 then Attempt(inventory, out)
             else RetriedUpdate(inventory, xs, Tail(rest), left - 1)
        decreases left
      {
        rest := Tail(rest);
        left := left - 1;
        ghost var before := inventory;
        out := RunAttempt(xs, Faulty(rest, 0));
        KeepsIds(before, xs, Faulty(rest, 0));
      }
      match out
      case Done(updated) => r := Updated(orderId.value, timestamp, updated);
      case Aborted(f) => r := UpdateFailed("Failed to update inventory", Message(f));
    }

    /** `GET /api/inventory/:productId`: reads the table only. */
    method GetProduct(id: string, faults: seq<bool>) returns (r: ProductResponse)
      ensures r.ProductOk? <==>
        FindProduct(inventory, id).Some? && exists i: nat :: i < RetryAttempts && !Faulty(faults, i)
      ensures r.ProductOk? ==> r.product == inventory[FindProduct(inventory, id).value]
      ensures r.ProductError? ==> (r.status == 404 <==> !Faulty(faults, RetryAttempts - 1))
      ensures r.ProductError? && r.status == 404 ==> r.error == ProductNotFound
      ensures r.ProductError? && r.status != 404 ==> r.status == 500 && r.error == "Failed to fetch product"
      ensures r == Respond(RetriedLookup(inventory, id, faults, RetryAttempts))
    {
      RetriedLookupOutcome(inventory, id, faults, RetryAttempts);
      r := Respond(RetriedLookup(inventory, id, faults, RetryAttempts));
    }
  }

  /** An update attempt never adds, removes or reorders rows, nor changes an id. */
  lemma KeepsIds(inv: seq<Product>, items: seq<Item>, fault: bool)
    requires DistinctIds(inv)
    ensures DistinctIds(UpdateAttempt(inv, items, fault).inventory)
    ensures |UpdateAttempt(inv, items, fault).inventory| == |inv|
    ensures forall i :: 0 <= i < |inv| ==> UpdateAttempt(inv, items, fault).inventory[i].id == inv[i].id
  {
    if !fault {
      RunLoopEffect(inv, items);
      var r := RunLoop(inv, items);
      if r.outcome.Aborted? {
        var k :| FailsFirstAt(inv, items, k) && r.inventory == Decremented(inv, items[..k]);
      }
    }
  }
}

/** The demo back end of the circuit-breaker example: a counter that lets
    five requests succeed and fails the sixth. */
module BreakerServiceB {

  datatype Reply = Reply(status: int, message: string)

  const FailMessage := "Service B failed intentionally"
  const SuccessMessage := "Hello from Service B"

  /** The counter after one request that finds it at `shouldFail`, and
      whether that request fails. */
  function Step(shouldFail: int): (r: (int, bool))
    ensures r.1 <==> shouldFail == 5
    ensures r.1 ==> r.0 == 0
    ensures !r.1 ==> r.0 == shouldFail + 1
    ensures 0 <= shouldFail <= 5 ==> 0 <= r.0 <= 5
  {
    if shouldFail == 5 then (0, true) else (shouldFail + 1, false)
  }

  /** The counter after `n` requests from a fresh start. */
  function CounterAfter(n: nat): int
  {
    if n == 0 then 0 else Step(CounterAfter(n - 1)).0
  }

  /** From a fresh start the counter after `n` requests is `n % 6`, and
      request number `n + 1` fails exactly when it is a multiple of six: five
      successes, one failure, over and over. */
  lemma {:induction false} FreshRun(n: nat)
    ensures CounterAfter(n) == n % 6
    ensures Step(CounterAfter(n)).1 <==> (n + 1) % 6 == 0
  {
    if n > 0 {
      FreshRun(n - 1);
    }
  }

  class ServiceB {
    var shouldFail: int

    /** The bound the counter keeps between requests. */
    ghost predicate Valid()
      reads this
    {
      0 <= shouldFail <= 5
    }

    constructor ()
      ensures Valid() && shouldFail == 0
    {
      shouldFail := 0;
    }

    /** `GET /api`: answers from the counter, then moves it on. */
    method Handle() returns (r: Reply)
      requires Valid()
      modifies this
      ensures Valid()
      ensures (shouldFail, r.status == 500) == Step(old(shouldFail))
      ensures r == if old(shouldFail) == 5 then Reply(500, FailMessage) else Reply(200, SuccessMessage)
    {
      if shouldFail == 5 {
        shouldFail := 0;
        r := Reply(500, FailMessage);
      } else {
        shouldFail := shouldFail + 1;
        r := Reply(200, SuccessMessage);
      }
    }
  }
}

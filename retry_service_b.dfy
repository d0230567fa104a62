/** The demo back end of the retry example: a request counter that answers
    500 until the fifth request since the last success. */
module RetryServiceB {

  datatype Reply = Reply(status: int, message: string)

  const FailMessage := "Service B failed, please retry"
  const SuccessMessage := "Hello from Service B after retries"

  /** The counter after one request that finds it at `attempt`, and whether
      that request fails. */
  function Step(attempt: int): (r: (int, bool))
    ensures r.1 <==> (attempt + 1) % 5 != 0
    ensures r.1 ==> r.0 == attempt + 1
    ensures !r.1 ==> r.0 == 0
    ensures 0 <= attempt < 5 ==> 0 <= r.0 < 5
  {
    var next := attempt + 1;
    if next % 5 != 0 then (next, true) else (0, false)
  }

  /** The counter after `n` requests from a fresh start. */
  function CounterAfter(n: nat): int
  {
    if n == 0 then 0 else Step(CounterAfter(n - 1)).0
  }

  /** From a fresh start the counter after `n` requests is `n % 5`, and
      request number `n + 1` fails unless it is a multiple of five: four
      failures, one success, over and over. */
  lemma {:induction false} FreshRun(n: nat)
    ensures CounterAfter(n) == n % 5
    ensures Step(CounterAfter(n)).1 <==> (n + 1) % 5 != 0
  {
    if n > 0 {
      FreshRun(n - 1);
    }
  }

  class ServiceB {
    var attempt: int

    /** The bound the counter keeps between requests. */
    ghost predicate Valid()
      reads this
    {
      0 <= attempt < 5
    }

    constructor ()
      ensures Valid() && attempt == 0
    {
      attempt := 0;
    }

    /** `GET /api`: counts the request, then answers. */
    method Handle() returns (r: Reply)
      requires Valid()
      modifies this
      ensures Valid()
      ensures (attempt, r.status == 500) == Step(old(attempt))
      ensures r.status == 500 <==> old(attempt) + 1 != 5
      ensures r == if r.status == 500 then Reply(500, FailMessage) else Reply(200, SuccessMessage)
    {
      attempt := attempt + 1;
      if attempt % 5 != 0 {
        r := Reply(500, FailMessage);
      } else {
        attempt := 0;
        r := Reply(200, SuccessMessage);
      }
    }
  }
}

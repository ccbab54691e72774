/**
 * The retry rule of `DXTrade._place_request`: one HTTP exchange per attempt,
 * a 200 reply yields its JSON body, a 429 reply is retried while the
 * iteration budget is not used up, and anything else yields `{}`.
 * The HTTP exchange itself is an oracle: `exchange(k)` is the reply to the
 * k-th attempt of the request.
 */
module Transport {
  import opened Json

  const StatusOk := 200
  const StatusTooManyRequests := 429
  /** The default `max_iterations` of `_place_request`, used by every caller. */
  const DefaultMaxIterations: nat := 3

  datatype Reply = Reply(status: int, body: map<string, Json>)

  /** What a request ends with: the body handed back and how many HTTP attempts it took. */
  datatype Outcome = Outcome(body: map<string, Json>, attempts: nat)

  /**
   * The recursive rule as the client writes it: attempt number `from`
   * is answered by `exchange(from)`, and `budget` retries are left.
   */
  function Retry(exchange: nat -> Reply, from: nat, budget: nat): (r: Outcome)
    ensures 1 <= r.attempts <= budget + 1
    decreases budget
  {
    var reply := exchange(from);
    if reply.status == StatusOk then
      Outcome(reply.body, 1)
    else if reply.status == StatusTooManyRequests && budget > 0 then
      var rest := Retry(exchange, from + 1, budget - 1);
      Outcome(rest.body, rest.attempts + 1)
    else
      Outcome(map[], 1)
  }

  /**
   * Every attempt but the last was rate-limited; the last one is not
   * rate-limited unless the budget ran out; the body is the last reply's
   * when that reply is a 200 and `{}` otherwise.
   */
  lemma {:induction false} RetryShape(exchange: nat -> Reply, from: nat, budget: nat)
    ensures var r := Retry(exchange, from, budget);
            var last := exchange(from + r.attempts - 1);
            && (forall k :: from <= k < from + r.attempts - 1 ==> exchange(k).status == StatusTooManyRequests)
            && (last.status != StatusTooManyRequests || r.attempts == budget + 1)
            && r.body == (if last.status == StatusOk then last.body else map[])
    decreases budget
  {
    var reply := exchange(from);
    if reply.status != StatusOk && reply.status == StatusTooManyRequests && budget > 0 {
      RetryShape(exchange, from + 1, budget - 1);
    }
  }

  /** A non-empty body comes only from a 200 reply within the first `budget + 1` attempts. */
  lemma NonEmptyBodyCameFromOk(exchange: nat -> Reply, budget: nat)
    requires Retry(exchange, 0, budget).body != map[]
    ensures exists k :: 0 <= k <= budget && exchange(k).status == StatusOk && exchange(k).body == Retry(exchange, 0, budget).body
  {
    RetryShape(exchange, 0, budget);
    var r := Retry(exchange, 0, budget);
    assert exchange(r.attempts - 1).status == StatusOk;
  }

  /**
   * `_place_request` with its recursion unrolled into a loop that counts
   * the budget down; the loop is the rule `Retry` states.
   */
  method SendWithRetry(exchange: nat -> Reply, maxIterations: nat) returns (body: map<string, Json>, attempts: nat)
    ensures Outcome(body, attempts) == Retry(exchange, 0, maxIterations)
    ensures 1 <= attempts <= maxIterations + 1
  {
    var budget := maxIterations;
    var reply := exchange(0);
    attempts := 1;
    while reply.status == StatusTooManyRequests && budget > 0
      invariant attempts + budget == maxIterations + 1
      invariant reply == exchange(attempts - 1)
      invariant Retry(exchange, 0, maxIterations)
             == var rest := Retry(exchange, attempts - 1, budget); Outcome(rest.body, rest.attempts + attempts - 1)
    {
      budget := budget - 1;
      reply := exchange(attempts);
      attempts := attempts + 1;
    }
    body := if reply.status == StatusOk then reply.body else map[];
  }
}

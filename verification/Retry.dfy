/** worker/retry.py and the reading of the x-retry-count header in worker/main.py. */
module Retry {
  const RETRY_TTLS_MS: seq<nat> := [10_000, 30_000, 90_000]
  const MAX_RETRIES: int := 3

  datatype Decision = Again(ttlMs: nat) | Dead | IndexError

  /**
    * Python indexes a tuple from the end with a negative index and raises below
    * -len, so the function is total only with the IndexError case.
    */
  function Decide(retryCount: int): Decision {
    if retryCount >= MAX_RETRIES then Dead
    else if retryCount >= 0 then Again(RETRY_TTLS_MS[retryCount])
    else if retryCount >= -MAX_RETRIES then Again(RETRY_TTLS_MS[MAX_RETRIES + retryCount])
    else IndexError
  }

  /** The documented delay for each count, and the end of the ladder. */
  lemma DelaysByCount(count: int)
    ensures Decide(0) == Again(10_000)
    ensures Decide(1) == Again(30_000)
    ensures Decide(2) == Again(90_000)
    ensures count >= 3 <==> Decide(count).Dead?
  {
    assert RETRY_TTLS_MS[0] == 10_000 && RETRY_TTLS_MS[1] == 30_000 && RETRY_TTLS_MS[2] == 90_000;
  }

  /** What `int(headers.get("x-retry-count", 0))` can find. */
  datatype Header = Absent | Count(n: int) | Corrupt

  function RetryCount(h: Header): int {
    match h
    case Absent => 0
    case Count(n) => n
    case Corrupt => MAX_RETRIES
  }

  /** The headers the API and the worker themselves ever put on a job message. */
  predicate LadderHeader(h: Header) {
    h == Absent || (h.Count? && 1 <= h.n <= MAX_RETRIES)
  }

  /** How many attempts a message can still lead to if it is never requeued. */
  function Potential(h: Header): (p: nat)
    ensures LadderHeader(h) ==> 1 <= p <= 4
  {
    if MAX_RETRIES + 1 - RetryCount(h) >= 1 then MAX_RETRIES + 1 - RetryCount(h) else 1
  }

  /** On the ladder the TTL index is in range, each rung waits longer, and the rungs run out. */
  lemma LadderDescends(h: Header)
    requires LadderHeader(h)
    ensures var d := Decide(RetryCount(h));
            && !d.IndexError?
            && (d.Again? <==> RetryCount(h) < MAX_RETRIES)
            && (d.Again? ==>
                 && 10_000 <= d.ttlMs <= 90_000
                 && LadderHeader(Count(RetryCount(h) + 1))
                 && Potential(Count(RetryCount(h) + 1)) == Potential(h) - 1
                 && (Decide(RetryCount(h) + 1).Again? ==> d.ttlMs < Decide(RetryCount(h) + 1).ttlMs))
            && (d.Dead? ==> Potential(h) == 1)
  {
    assert RetryCount(h) == 0 || RetryCount(h) == 1 || RetryCount(h) == 2 || RetryCount(h) == 3;
    assert RETRY_TTLS_MS[0] == 10_000 && RETRY_TTLS_MS[1] == 30_000 && RETRY_TTLS_MS[2] == 90_000;
  }
}

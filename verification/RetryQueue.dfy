/**
  * The single retry queue: first in, first out, a TTL on every message, and only the
  * head can expire.  Time is in milliseconds.
  */
module RetryQueue {
  import opened Retry

  /** A retry copy with the moment handle_failure published it and its `expiration`. */
  datatype Copy = Copy(at: nat, ttl: nat)

  /**
    * `log` is every copy ever published, in order; the first |released| of them have been
    * dead-lettered back to the jobs queue, at the times in `released`; the rest wait.
    */
  datatype Queue = Queue(now: nat, log: seq<Copy>, released: seq<nat>)

  datatype Event = Publish(ttl: nat) | Tick

  const EMPTY_QUEUE := Queue(0, [], [])

  function Due(c: Copy): nat {
    c.at + c.ttl
  }

  /** Expired heads leave until the head has not expired. */
  function Drain(q: Queue): Queue
    requires |q.released| <= |q.log|
    decreases |q.log| - |q.released|
  {
    if |q.released| < |q.log| && Due(q.log[|q.released|]) <= q.now
    then Drain(q.(released := q.released + [q.now]))
    else q
  }

  function Step(q: Queue, e: Event): Queue
    requires |q.released| <= |q.log|
  {
    match e
    case Publish(ttl) => Drain(q.(log := q.log + [Copy(q.now, ttl)]))
    case Tick => Drain(q.(now := q.now + 1))
  }

  function Run(q: Queue, es: seq<Event>): (r: Queue)
    requires Valid(q)
    ensures Valid(r)
    decreases |es|
  {
    if es == [] then q else StepValid(q, es[0]); Run(Step(q, es[0]), es[1..])
  }

  /** The latest expiry among the first i + 1 copies. */
  function LatestDue(log: seq<Copy>, i: nat): nat
    requires i < |log|
  {
    if i == 0 then Due(log[0])
    else if Due(log[i]) >= LatestDue(log, i - 1) then Due(log[i]) else LatestDue(log, i - 1)
  }

  ghost predicate InOrder(log: seq<Copy>, now: nat) {
    && (forall i :: 0 <= i < |log| ==> log[i].at <= now)
    && (forall i, j :: 0 <= i <= j < |log| ==> log[i].at <= log[j].at)
  }

  /** Every release happened at the latest expiry so far, and all of those are past. */
  ghost predicate Settled(q: Queue) {
    && |q.released| <= |q.log|
    && InOrder(q.log, q.now)
    && (forall i :: 0 <= i < |q.released| ==> q.released[i] == LatestDue(q.log, i) <= q.now)
  }

  ghost predicate Valid(q: Queue) {
    && Settled(q)
    && (|q.released| < |q.log| ==> q.now < Due(q.log[|q.released|]))
  }

  lemma {:induction false} LatestDueKept(log: seq<Copy>, c: Copy, i: nat)
    requires i < |log|
    ensures LatestDue(log + [c], i) == LatestDue(log, i)
  {
    if i > 0 {
      LatestDueKept(log, c, i - 1);
    }
  }

  /** LatestDue is the least upper bound of the expiries it ranges over. */
  lemma {:induction false} LatestDueIsMax(log: seq<Copy>, i: nat)
    requires i < |log|
    ensures forall j :: 0 <= j <= i ==> Due(log[j]) <= LatestDue(log, i)
    ensures exists j :: 0 <= j <= i && Due(log[j]) == LatestDue(log, i)
  {
    if i == 0 {
      assert Due(log[0]) == LatestDue(log, 0);
    } else {
      LatestDueIsMax(log, i - 1);
      if Due(log[i]) < LatestDue(log, i - 1) {
        var j :| 0 <= j <= i - 1 && Due(log[j]) == LatestDue(log, i - 1);
        assert 0 <= j <= i && Due(log[j]) == LatestDue(log, i);
      } else {
        assert Due(log[i]) == LatestDue(log, i);
      }
    }
  }

  /**
    * The clock stands exactly at the latest expiry whenever draining releases a copy: just
    * before, either that copy or one ahead of it was still running.
    */
  lemma {:induction false} DrainValid(q: Queue)
    requires Settled(q)
    requires |q.released| < |q.log| ==> q.now <= LatestDue(q.log, |q.released|)
    ensures Valid(Drain(q)) && Drain(q).now == q.now && Drain(q).log == q.log && q.released <= Drain(q).released
    decreases |q.log| - |q.released|
  {
    var k := |q.released|;
    if k < |q.log| && Due(q.log[k]) <= q.now {
      assert k > 0 ==> q.released[k - 1] == LatestDue(q.log, k - 1) <= q.now;
      var next := q.(released := q.released + [q.now]);
      assert forall i :: 0 <= i < k ==> next.released[i] == q.released[i];
      if k + 1 < |q.log| {
        assert LatestDue(q.log, k + 1) >= LatestDue(q.log, k);
      }
      DrainValid(next);
    }
  }

  lemma StepValid(q: Queue, e: Event)
    requires Valid(q)
    ensures Valid(Step(q, e)) && q.log <= Step(q, e).log && q.released <= Step(q, e).released
  {
    var k := |q.released|;
    match e {
      case Publish(ttl) =>
        var c := Copy(q.now, ttl);
        var next := q.(log := q.log + [c]);
        forall i | 0 <= i < |q.log|
          ensures LatestDue(next.log, i) == LatestDue(q.log, i)
        {
          LatestDueKept(q.log, c, i);
        }
        LatestDueIsMax(next.log, k);
        DrainValid(next);
      case Tick =>
        if k < |q.log| {
          LatestDueIsMax(q.log, k);
        }
        DrainValid(q.(now := q.now + 1));
    }
  }

  lemma {:induction false} LatestDueMonotone(log: seq<Copy>, i: nat, j: nat)
    requires i <= j < |log|
    ensures LatestDue(log, i) <= LatestDue(log, j)
  {
    LatestDueIsMax(log, i);
    LatestDueIsMax(log, j);
  }

  /** When the i-th copy comes back: exactly at the latest expiry among it and those ahead of it. */
  lemma ReleasedAtLatestDue(es: seq<Event>, i: nat)
    ensures var q := Run(EMPTY_QUEUE, es);
            i < |q.released| ==>
              && q.released[i] >= Due(q.log[i])
              && (forall j :: 0 <= j <= i ==> Due(q.log[j]) <= q.released[i])
              && (exists j :: 0 <= j <= i && Due(q.log[j]) == q.released[i])
  {
    var q := Run(EMPTY_QUEUE, es);
    if i < |q.released| { LatestDueIsMax(q.log, i); }
  }

  /** The i-th copy has come back exactly when the latest expiry among it and those ahead of it has passed. */
  lemma ReleasedIff(es: seq<Event>, i: nat)
    ensures var q := Run(EMPTY_QUEUE, es);
            i < |q.log| ==> (i < |q.released| <==> LatestDue(q.log, i) <= q.now)
  {
    var q := Run(EMPTY_QUEUE, es);
    if i < |q.log| { LatestDueIsMax(q.log, i); }
  }

  /** Releases keep publishing order. */
  lemma ReleasesKeepOrder(es: seq<Event>, i: nat, j: nat)
    ensures var q := Run(EMPTY_QUEUE, es); i <= j < |q.released| ==> q.released[i] <= q.released[j]
  {
    var q := Run(EMPTY_QUEUE, es);
    if i <= j < |q.released| { LatestDueMonotone(q.log, i, j); }
  }

  /** The copy comes back on its own expiry exactly when nothing ahead of it expires later. */
  lemma OnTimeIff(es: seq<Event>, i: nat)
    ensures var q := Run(EMPTY_QUEUE, es);
            i < |q.released| ==>
              (q.released[i] == Due(q.log[i]) <==> forall j :: 0 <= j < i ==> Due(q.log[j]) <= Due(q.log[i]))
  {
    var q := Run(EMPTY_QUEUE, es);
    if i < |q.released| { LatestDueIsMax(q.log, i); }
  }

  /** The TTLs handle_failure can put on a copy. */
  ghost predicate LadderTtl(ttl: nat) {
    exists h :: LadderHeader(h) && Decide(RetryCount(h)) == Again(ttl)
  }

  ghost predicate LadderRun(es: seq<Event>) {
    forall e :: e in es && e.Publish? ==> LadderTtl(e.ttl)
  }

  lemma {:induction false} LogIsLadder(q: Queue, es: seq<Event>, i: nat)
    requires Valid(q) && LadderRun(es) && i < |Run(q, es).log|
    requires forall c :: c in q.log ==> LadderTtl(c.ttl)
    ensures LadderTtl(Run(q, es).log[i].ttl)
    decreases |es|
  {
    if es != [] {
      StepValid(q, es[0]);
      var next := Step(q, es[0]);
      LogAfter(q, es[0]);
      assert es[0] in es;
      LogIsLadder(next, es[1..], i);
    }
  }

  lemma LogAfter(q: Queue, e: Event)
    requires Valid(q)
    ensures Step(q, e).log == if e.Publish? then q.log + [Copy(q.now, e.ttl)] else q.log
  {
    DrainKeepsLog(if e.Publish? then q.(log := q.log + [Copy(q.now, e.ttl)]) else q.(now := q.now + 1));
  }

  lemma {:induction false} DrainKeepsLog(q: Queue)
    requires |q.released| <= |q.log|
    ensures Drain(q).log == q.log
    decreases |q.log| - |q.released|
  {
    if |q.released| < |q.log| && Due(q.log[|q.released|]) <= q.now {
      DrainKeepsLog(q.(released := q.released + [q.now]));
    }
  }

  lemma LadderTtlBounds(ttl: nat)
    requires LadderTtl(ttl)
    ensures 10_000 <= ttl <= 90_000
  {
    var h :| LadderHeader(h) && Decide(RetryCount(h)) == Again(ttl);
    LadderDescends(h);
  }

  /**
    * However the ladder's three delays are mixed, a copy waits at least its own delay and at
    * most 90 s: head-of-line blocking never costs more than the longest rung.
    */
  lemma DelayBounds(es: seq<Event>, i: nat)
    requires LadderRun(es) && i < |Run(EMPTY_QUEUE, es).log|
    ensures var q := Run(EMPTY_QUEUE, es);
            && 10_000 <= q.log[i].ttl
            && (i < |q.released| ==> q.log[i].at + q.log[i].ttl <= q.released[i] <= q.log[i].at + 90_000)
            && (i >= |q.released| ==> q.now < q.log[i].at + 90_000)
  {
    var q := Run(EMPTY_QUEUE, es);
    forall j | 0 <= j < |q.log|
      ensures 10_000 <= q.log[j].ttl <= 90_000
    {
      LogIsLadder(EMPTY_QUEUE, es, j);
      LadderTtlBounds(q.log[j].ttl);
    }
    LatestDueIsMax(q.log, i);
    if i >= |q.released| {
      assert q.log[|q.released|].at <= q.log[i].at;
    }
  }
}

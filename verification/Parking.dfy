/**
  * When a delivered message is parked in the dead queue without an attempt, whatever its
  * header: the schema promises it for a corrupted x-retry-count, the code does not keep it.
  */
module Parking {
  import opened Domain
  import opened Retry
  import opened Protocol
  import opened Cluster
  import opened WorkerProcess
  import CounterRuns

  /** One call of the handler: the state it met and the event it was. */
  datatype Made = Made(before: State, event: Event)

  function MeetsAt(s: State, w: nat, b: Beat): State {
    Run(s, Foreign(b.others, w))
  }

  function Leaves(s: State, w: nat, b: Beat): State
    requires IsBusy(s, w)
  {
    Next(MeetsAt(s, w, b), OwnEvent(s.workers[w], w, b))
  }

  /** The calls of worker w's handler, in order. */
  function Trace(s: State, w: nat, script: seq<Beat>): seq<Made>
    decreases |script|
  {
    if !IsBusy(s, w) || script == [] then []
    else
      [Made(MeetsAt(s, w, script[0]), OwnEvent(s.workers[w], w, script[0]))]
      + Trace(Leaves(s, w, script[0]), w, script[1..])
  }

  /** The call put a message into the dead queue. */
  ghost predicate Parks(c: Made) {
    var after := Next(c.before, c.event);
    exists m: nat :: m < |after.msgs| && after.msgs[m].place == InDead
                     && (m >= |c.before.msgs| || c.before.msgs[m].place != InDead)
  }

  /** The call was a `mark_processing` that took effect. */
  predicate Starts(c: Made) {
    && c.event.Work? && c.event.outcome.applied && IsBusy(c.before, c.event.w)
    && c.before.workers[c.event.w].phase.Begin?
  }

  /** Some call parked, and no attempt had been started by then. */
  ghost predicate ParkedUntried(calls: seq<Made>) {
    calls != [] && !Starts(calls[0]) && (Parks(calls[0]) || ParkedUntried(calls[1..]))
  }

  predicate Handles(s: State, w: nat) {
    IsBusy(s, w) && (s.workers[w].phase.RejectPoison? || s.workers[w].body.JobBody?)
  }

  lemma ParksIff(s: State, w: nat, b: Beat)
    requires Handles(s, w)
    ensures var h := s.workers[w];
            Parks(Made(s, OwnEvent(h, w, b))) <==>
              || (h.phase.RejectPoison? && b.outcome.applied && Held(s, h))
              || (h.phase.Publishing? && Decide(RetryCount(h.header)).Dead? && Confirm(b.outcome).applied)
  {
    var h, t := s.workers[w], Next(s, OwnEvent(s.workers[w], w, b));
    if h.phase.RejectPoison? && b.outcome.applied && Held(s, h) {
      assert t.msgs[h.id].place == InDead;
    }
    if h.phase.Publishing? && Decide(RetryCount(h.header)).Dead? && Confirm(b.outcome).applied {
      assert t.msgs[|s.msgs|].place == InDead;
    }
  }

  /** The handler after its own call. */
  lemma HandlerAfter(s: State, w: nat, b: Beat)
    requires Handles(s, w) && !s.workers[w].phase.Running?
    ensures var h, t := s.workers[w], Next(s, OwnEvent(s.workers[w], w, b));
            var o := if AwaitsConfirmation(h.phase) then Confirm(b.outcome) else b.outcome;
            && w < |t.workers| && t.workers[w] == Resumes(s.rows, h, o, b.error)
            && (t.workers[w].Busy? ==> Handles(t, w))
            && (Starts(Made(s, OwnEvent(h, w, b))) <==> h.phase.Begin? && o.applied)
  {
  }

  lemma TraceStep(s: State, w: nat, script: seq<Beat>)
    requires Handles(s, w) && script != []
    ensures var met := MeetsAt(s, w, script[0]);
            && Handles(met, w) && met.workers[w] == s.workers[w]
            && Leaves(s, w, script[0]) == Next(met, OwnEvent(met.workers[w], w, script[0]))
            && Drive(s, w, script) == Drive(Leaves(s, w, script[0]), w, script[1..])
            && Trace(s, w, script) == [Made(met, OwnEvent(met.workers[w], w, script[0]))]
                                      + Trace(Leaves(s, w, script[0]), w, script[1..])
  {
    ForeignKeepsHandler(s, script[0].others, w);
  }

  /** Phases after which nothing is parked any more. */
  predicate Spent(p: Phase) {
    p.SkipAck? || p.Recording? || p.Burying? || p.HandledAck? || p.Nacking?
  }

  lemma {:induction false} SpentNeverParks(s: State, w: nat, script: seq<Beat>)
    requires w < |s.workers| && (s.workers[w].Idle? || (Handles(s, w) && Spent(s.workers[w].phase)))
    ensures !ParkedUntried(Trace(s, w, script))
    decreases |script|
  {
    if s.workers[w].Busy? && script != [] {
      TraceStep(s, w, script);
      var met := MeetsAt(s, w, script[0]);
      ParksIff(met, w, script[0]);
      HandlerAfter(met, w, script[0]);
      SpentNeverParks(Leaves(s, w, script[0]), w, script[1..]);
    }
  }

  lemma RejectParks(s: State, w: nat, script: seq<Beat>)
    requires Handles(s, w) && s.workers[w].phase.RejectPoison?
    ensures ParkedUntried(Trace(s, w, script)) <==>
              script != [] && script[0].outcome.applied && Held(MeetsAt(s, w, script[0]), s.workers[w])
  {
    if script != [] {
      TraceStep(s, w, script);
      var met := MeetsAt(s, w, script[0]);
      ParksIff(met, w, script[0]);
      HandlerAfter(met, w, script[0]);
      SpentNeverParks(Leaves(s, w, script[0]), w, script[1..]);
    }
  }

  /** The publish of a dead copy took effect. */
  predicate DeadPublish(h: Handler, script: seq<Beat>)
    requires h.Busy?
  {
    script != [] && Decide(RetryCount(h.header)).Dead? && Confirm(script[0].outcome).applied
  }

  lemma PublishingParks(s: State, w: nat, script: seq<Beat>)
    requires Handles(s, w) && s.workers[w].phase.Publishing?
    ensures ParkedUntried(Trace(s, w, script)) <==> DeadPublish(s.workers[w], script)
  {
    if script != [] {
      TraceStep(s, w, script);
      var met := MeetsAt(s, w, script[0]);
      ParksIff(met, w, script[0]);
      HandlerAfter(met, w, script[0]);
      SpentNeverParks(Leaves(s, w, script[0]), w, script[1..]);
    }
  }

  /** `mark_processing` raised having done nothing, and the dead copy was published for that. */
  predicate FailsBeforeStart(h: Handler, script: seq<Beat>)
    requires h.Busy?
  {
    && script != [] && script[0].outcome.raised && !script[0].outcome.applied
    && DeadPublish(h, script[1..])
  }

  lemma BeginParks(s: State, w: nat, script: seq<Beat>)
    requires Handles(s, w) && s.workers[w].phase.Begin?
    ensures ParkedUntried(Trace(s, w, script)) <==> FailsBeforeStart(s.workers[w], script)
  {
    if script != [] {
      TraceStep(s, w, script);
      var met := MeetsAt(s, w, script[0]);
      ParksIff(met, w, script[0]);
      HandlerAfter(met, w, script[0]);
      if !Confirm(script[0].outcome).applied {
        PublishingParks(Leaves(s, w, script[0]), w, script[1..]);
      }
    }
  }

  /** The nack of a message the handler still holds took effect. */
  ghost predicate Rejected(s: State, w: nat, script: seq<Beat>)
    requires IsBusy(s, w)
  {
    script != [] && script[0].outcome.applied && Held(MeetsAt(s, w, script[0]), s.workers[w])
  }

  /** Malformed, or unknown when the status is read, or on its last count with a lost `mark_processing`. */
  ghost predicate ParksWithoutAttempt(s: State, w: nat, script: seq<Beat>)
    requires IsBusy(s, w)
  {
    var h := s.workers[w];
    if h.body.Malformed? then Rejected(s, w, script)
    else
      && script != [] && !script[0].outcome.raised && IsBusy(Leaves(s, w, script[0]), w)
      && var rows := MeetsAt(s, w, script[0]).rows;
         if h.body.job !in rows then Rejected(Leaves(s, w, script[0]), w, script[1..])
         else rows[h.body.job].status != Completed && FailsBeforeStart(h, script[1..])
  }

  /**
    * For a delivered message with any header, in any state and under any interference: it is
    * parked without an applied `mark_processing` if and only if it is malformed or its job is
    * unknown and the rejection takes effect, or its count is used up, `mark_processing` raised
    * having done nothing, and the dead copy is published.
    */
  lemma ParkedUntriedIff(s: State, w: nat, script: seq<Beat>)
    requires IsBusy(s, w) && s.workers[w].phase == Start(s.workers[w].body)
    ensures ParkedUntried(Trace(s, w, script)) <==> ParksWithoutAttempt(s, w, script)
  {
    var h := s.workers[w];
    if h.body.Malformed? {
      RejectParks(s, w, script);
    } else if script != [] {
      TraceStep(s, w, script);
      var met, next := MeetsAt(s, w, script[0]), Leaves(s, w, script[0]);
      ParksIff(met, w, script[0]);
      HandlerAfter(met, w, script[0]);
      if next.workers[w].phase.RejectPoison? {
        RejectParks(next, w, script[1..]);
      } else if next.workers[w].phase.Begin? {
        BeginParks(next, w, script[1..]);
      } else {
        SpentNeverParks(next, w, script[1..]);
      }
    }
  }

  /** So a corrupted count of a known, unfinished job is parked untried only if `mark_processing` is lost. */
  lemma CorruptIsAttempted(s: State, w: nat, script: seq<Beat>)
    requires IsBusy(s, w) && s.workers[w].phase.Received? && s.workers[w].body.JobBody? && s.workers[w].header.Corrupt?
    requires |script| >= 2 && s.workers[w].body.job in MeetsAt(s, w, script[0]).rows
    ensures ParkedUntried(Trace(s, w, script)) <==>
              && !script[0].outcome.raised
              && MeetsAt(s, w, script[0]).rows[s.workers[w].body.job].status != Completed
              && script[1].outcome.raised && !script[1].outcome.applied
              && |script| >= 3 && Confirm(script[2].outcome).applied
  {
    ParkedUntriedIff(s, w, script);
    TraceStep(s, w, script);
    HandlerAfter(MeetsAt(s, w, script[0]), w, script[0]);
  }

  /* ---------- an attempt that succeeds ---------- */

  function Smooth(result: Option<Transcript>): Beat {
    Beat([], FINE, None, result, "")
  }

  /** Status, start, pipeline, commit, ack: no interference and no fault. */
  function Success(t: Transcript): seq<Beat> {
    [Smooth(None), Smooth(None), Smooth(Some(t)), Smooth(None), Smooth(None)]
  }

  lemma SmoothStep(s: State, w: nat, script: seq<Beat>)
    requires IsBusy(s, w) && script != [] && script[0].others == []
    ensures Drive(s, w, script) == Drive(Next(s, OwnEvent(s.workers[w], w, script[0])), w, script[1..])
  {
    assert Foreign([], w) == [];
  }

  lemma Committed(s: State, w: nat, t: Transcript)
    requires IsBusy(s, w) && Held(s, s.workers[w]) && s.workers[w].body.JobBody? && s.workers[w].body.job in s.rows
    requires s.workers[w].phase == Completing(t)
    ensures var h := s.workers[w];
            Drive(s, w, [Smooth(None), Smooth(None)])
            == s.(rows := s.rows[h.body.job := Updated(s.rows[h.body.job], Complete(t))],
                  msgs := s.msgs[h.id := s.msgs[h.id].(place := Gone)], workers := s.workers[w := Idle])
  {
    var h, script := s.workers[w], [Smooth(None), Smooth(None)];
    SmoothStep(s, w, script);
    var s1 := Next(s, OwnEvent(h, w, script[0]));
    assert s1.workers[w] == h.(phase := DoneAck) && script[1..] == [Smooth(None)];
    SmoothStep(s1, w, [Smooth(None)]);
    var s2 := Next(s1, OwnEvent(s1.workers[w], w, Smooth(None)));
    assert s2.workers == s.workers[w := Idle];
  }

  lemma StatusRead(s: State, w: nat)
    requires IsBusy(s, w) && s.workers[w].phase.Received? && s.workers[w].body.JobBody?
    requires s.workers[w].body.job in s.rows && s.rows[s.workers[w].body.job].status != Completed
    ensures Next(s, OwnEvent(s.workers[w], w, Smooth(None))) == SetWorker(s, w, s.workers[w].(phase := Begin))
  {
  }

  lemma AttemptStarted(s: State, w: nat)
    requires IsBusy(s, w) && s.workers[w].phase.Begin? && s.workers[w].body.JobBody? && s.workers[w].body.job in s.rows
    ensures var h := s.workers[w];
            Next(s, OwnEvent(h, w, Smooth(None)))
            == SetWorker(s.(rows := s.rows[h.body.job := Updated(s.rows[h.body.job], MarkProcessing)]),
                         w, h.(phase := Running))
  {
  }

  lemma PipelineDone(s: State, w: nat, t: Transcript)
    requires IsBusy(s, w) && s.workers[w].phase.Running?
    ensures Next(s, OwnEvent(s.workers[w], w, Smooth(Some(t))))
         == SetWorker(s, w, s.workers[w].(phase := Completing(t)))
  {
  }

  /** From the delivery to the result of the pipeline. */
  lemma Attempted(s: State, w: nat, t: Transcript)
    requires IsBusy(s, w) && s.workers[w].phase.Received? && s.workers[w].body.JobBody?
    requires s.workers[w].body.job in s.rows && s.rows[s.workers[w].body.job].status != Completed
    ensures var h := s.workers[w];
            Drive(s, w, Success(t))
            == Drive(SetWorker(s.(rows := s.rows[h.body.job := Updated(s.rows[h.body.job], MarkProcessing)]),
                               w, h.(phase := Completing(t))),
                     w, [Smooth(None), Smooth(None)])
  {
    var h, script := s.workers[w], Success(t);
    SmoothStep(s, w, script);
    StatusRead(s, w);
    var s1 := SetWorker(s, w, h.(phase := Begin));
    SmoothStep(s1, w, script[1..]);
    AttemptStarted(s1, w);
    var s2 := SetWorker(s1.(rows := s.rows[h.body.job := Updated(s.rows[h.body.job], MarkProcessing)]),
                        w, h.(phase := Running));
    SmoothStep(s2, w, script[1..][1..]);
    PipelineDone(s2, w, t);
    assert SetWorker(s2, w, h.(phase := Completing(t))).workers == s.workers[w := h.(phase := Completing(t))];
    assert script[1..][1..][1..] == [Smooth(None), Smooth(None)];
  }

  /** What one successful attempt leaves in the row. */
  predicate CompletedOnce(before: Row, after: Row, t: Transcript) {
    && after.status == Completed && after.transcript == Some(t)
    && after.language == Some(t.language) && after.durationSec == Some(t.duration)
    && after.progress == 1.0 && after.error == None && after.attempts == before.attempts + 1
    && after.contentHash == before.contentHash && after.filePath == before.filePath
  }

  /**
    * A waiting message of a known, unfinished job, whatever its header says: it is attempted,
    * and when the attempt succeeds the job is completed, its message acknowledged, no copy made.
    */
  lemma AnyHeaderCompletes(s: State, w: nat, m: nat, t: Transcript)
    requires w < |s.workers| && s.workers[w].Idle? && m < |s.msgs| && s.msgs[m].place == InJobs
    requires s.msgs[m].body.JobBody? && s.msgs[m].body.job in s.rows && s.rows[s.msgs[m].body.job].status != Completed
    ensures var r, j := Drive(Next(s, Deliver(w, m)), w, Success(t)), s.msgs[m].body.job;
            && r.msgs == s.msgs[m := s.msgs[m].(place := Gone)]
            && r.rows.Keys == s.rows.Keys && (forall k :: k in s.rows && k != j ==> r.rows[k] == s.rows[k])
            && CompletedOnce(s.rows[j], r.rows[j], t)
            && r.workers == s.workers && r.tags == s.tags + 1
  {
    var d := Next(s, Deliver(w, m));
    var h := d.workers[w];
    Attempted(d, w, t);
    var s3 := SetWorker(d.(rows := d.rows[h.body.job := Updated(d.rows[h.body.job], MarkProcessing)]),
                        w, h.(phase := Completing(t)));
    Committed(s3, w, t);
    assert s3.workers[w := Idle] == s.workers;
  }

  /** A queued job whose waiting message has a corrupted count. */
  const CORRUPTED := CounterRuns.Snapshot(CounterRuns.FIRST, [Message(CounterRuns.BODY, Corrupt, InJobs, 0)], 0, [Idle])

  /** The input that breaks the schema's promise: the job is completed, its message acknowledged, nothing parked. */
  lemma CorruptCompletes(t: Transcript)
    ensures var s := CORRUPTED;
            var r := Drive(Next(s, Deliver(0, 0)), 0, Success(t));
            && Decide(RetryCount(Corrupt)).Dead?
            && 0 in r.rows && r.rows[0].status == Completed && r.rows[0].attempts == 1
            && r.rows[0].transcript == Some(t)
            && r.msgs == [Message(CounterRuns.BODY, Corrupt, Gone, 0)]
  {
    AnyHeaderCompletes(CORRUPTED, 0, 0, t);
  }
}

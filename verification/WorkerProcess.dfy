/**
  * `handle_message` and `handle_failure` in their own form, run against every
  * schedule of interference, faults and crashes, and proved to follow the
  * transition system step by step.
  */
module WorkerProcess {
  import opened Domain
  import opened Retry
  import opened Protocol
  import opened Cluster

  /** Everything but the steps of worker w itself. */
  predicate ByOthers(e: Event, w: nat) {
    match e
    case Deliver(v, _) => v != w
    case Work(v, _, _) => v != w
    case Pipeline(v, _, _) => v != w
    case Crash(v) => v != w
    case _ => true
  }

  function Foreign(es: seq<Event>, w: nat): seq<Event> {
    if es == [] then []
    else if ByOthers(es[|es| - 1], w) then Foreign(es[..|es| - 1], w) + [es[|es| - 1]]
    else Foreign(es[..|es| - 1], w)
  }

  predicate AwaitsConfirmation(p: Phase) {
    p.Begin? || p.Completing? || p.Publishing? || p.Recording? || p.Burying?
  }

  function OwnEvent(h: Handler, w: nat, b: Beat): Event
    requires h.Busy?
  {
    if h.phase.Running? then Pipeline(w, b.result, b.error)
    else Work(w, if AwaitsConfirmation(h.phase) then Confirm(b.outcome) else b.outcome, b.error)
  }

  /** The coroutine of worker w, one beat for each await; when the beats run out the process dies. */
  function Drive(s: State, w: nat, script: seq<Beat>): State
    decreases |script|
  {
    if w >= |s.workers| || s.workers[w].Idle? then s
    else if script == [] then Next(s, Crash(w))
    else Drive(Next(Run(s, Foreign(script[0].others, w)), OwnEvent(s.workers[w], w, script[0])), w, script[1..])
  }

  /** The drive of a coroutine is a run of the transition system, so everything proved of runs holds of it. */
  lemma {:induction false} DriveIsRun(s: State, w: nat, script: seq<Beat>) returns (es: seq<Event>)
    ensures Drive(s, w, script) == Run(s, es)
    decreases |script|
  {
    if w >= |s.workers| || s.workers[w].Idle? {
      es := [];
    } else if script == [] {
      es := [] + [Crash(w)];
      RunSnoc(s, [], Crash(w));
    } else {
      var fs, e := Foreign(script[0].others, w), OwnEvent(s.workers[w], w, script[0]);
      RunSnoc(s, fs, e);
      var more := DriveIsRun(Run(s, fs + [e]), w, script[1..]);
      RunConcat(s, fs + [e], more);
      es := fs + [e] + more;
    }
  }

  /** Nobody else moves a worker's handler. */
  lemma OthersKeepHandler(s: State, e: Event, w: nat)
    requires IsBusy(s, w) && ByOthers(e, w)
    ensures IsBusy(Next(s, e), w) && Next(s, e).workers[w] == s.workers[w]
  {
  }

  lemma {:induction false} ForeignKeepsHandler(s: State, es: seq<Event>, w: nat)
    requires IsBusy(s, w)
    ensures var t := Run(s, Foreign(es, w)); IsBusy(t, w) && t.workers[w] == s.workers[w]
  {
    if es != [] {
      var fs, e := Foreign(es[..|es| - 1], w), es[|es| - 1];
      ForeignKeepsHandler(s, es[..|es| - 1], w);
      if ByOthers(e, w) {
        RunSnoc(s, fs, e);
        OthersKeepHandler(Run(s, fs), e, w);
      }
    }
  }

  /** One await begins: the others act, or the process is killed. */
  method Turn(sys: System, w: nat, script: seq<Beat>) returns (alive: bool)
    requires IsBusy(sys.View(), w)
    modifies sys, sys.db, sys.broker, sys.storage
    ensures alive <==> script != []
    ensures !alive ==> sys.View() == Drive(old(sys.View()), w, script) && w < |sys.workers| && sys.workers[w].Idle?
    ensures alive ==>
              && sys.View() == Run(old(sys.View()), Foreign(script[0].others, w))
              && IsBusy(sys.View(), w) && sys.workers[w] == old(sys.workers[w])
  {
    alive := script != [];
    if alive {
      ForeignKeepsHandler(sys.View(), script[0].others, w);
      sys.Others(Foreign(script[0].others, w));
    } else {
      sys.workers := sys.workers[w := Idle];
      assert sys.View() == Next(old(sys.View()), Crash(w));
    }
  }

  /** nack(requeue=True) after the pause, at the end of `handle_failure` and when the status cannot be read. */
  method RequeueAfterPause(sys: System, w: nat, script: seq<Beat>)
    requires IsBusy(sys.View(), w) && sys.workers[w].phase.Nacking? && sys.workers[w].body.JobBody?
    modifies sys, sys.db, sys.broker, sys.storage
    ensures sys.View() == Drive(old(sys.View()), w, script)
  {
    var message := sys.workers[w];
    var alive := Turn(sys, w, script);
    if !alive { return; }
    ghost var s := sys.View();
    var _ := sys.broker.Nack(message.id, message.tag, true, script[0].outcome);
    sys.workers := sys.workers[w := Idle];
    assert sys.View() == Next(s, OwnEvent(message, w, script[0]));
  }

  /** The ack that ends `handle_failure`; if it raises, the message is requeued. */
  method AckHandled(sys: System, w: nat, script: seq<Beat>)
    requires IsBusy(sys.View(), w) && sys.workers[w].phase.HandledAck? && sys.workers[w].body.JobBody?
    modifies sys, sys.db, sys.broker, sys.storage
    ensures sys.View() == Drive(old(sys.View()), w, script)
  {
    var message := sys.workers[w];
    var alive := Turn(sys, w, script);
    if !alive { return; }
    ghost var s := sys.View();
    var raised := sys.broker.Ack(message.id, message.tag, script[0].outcome);
    sys.workers := sys.workers[w := if raised then message.(phase := Nacking) else Idle];
    assert sys.View() == Next(s, OwnEvent(message, w, script[0]));
    if raised {
      RequeueAfterPause(sys, w, script[1..]);
    }
  }

  /** `record_retry` or `fail`, after the copy was confirmed. */
  method RecordOutcome(sys: System, w: nat, script: seq<Beat>)
    requires IsBusy(sys.View(), w) && sys.workers[w].body.JobBody?
    requires sys.workers[w].phase.Recording? || sys.workers[w].phase.Burying?
    modifies sys, sys.db, sys.broker, sys.storage
    ensures sys.View() == Drive(old(sys.View()), w, script)
  {
    var message := sys.workers[w];
    var alive := Turn(sys, w, script);
    if !alive { return; }
    ghost var s := sys.View();
    var raised: bool;
    if message.phase.Recording? {
      raised := sys.db.RecordRetry(message.body.job, message.phase.error, Confirm(script[0].outcome));
    } else {
      raised := sys.db.Fail(message.body.job, message.phase.error, Confirm(script[0].outcome));
    }
    sys.workers := sys.workers[w := message.(phase := if raised then Nacking else HandledAck)];
    assert sys.View() == Next(s, OwnEvent(message, w, script[0]));
    if raised {
      RequeueAfterPause(sys, w, script[1..]);
    } else {
      AckHandled(sys, w, script[1..]);
    }
  }

  /** The two publishes of `handle_failure`, each followed by its row update. */
  method ScheduleRetry(sys: System, w: nat, retryCount: int, ttlMs: nat, script: seq<Beat>)
    requires IsBusy(sys.View(), w) && sys.workers[w].phase.Publishing? && sys.workers[w].body.JobBody?
    requires retryCount == RetryCount(sys.workers[w].header) && Decide(retryCount) == Again(ttlMs)
    modifies sys, sys.db, sys.broker, sys.storage
    ensures sys.View() == Drive(old(sys.View()), w, script)
  {
    var message := sys.workers[w];
    var alive := Turn(sys, w, script);
    if !alive { return; }
    ghost var s := sys.View();
    var copy := Message(message.body, Count(retryCount + 1), InRetry(ttlMs), 0);
    var raised := sys.broker.Publish(copy, Confirm(script[0].outcome));
    sys.workers := sys.workers[w := message.(phase := if raised then Nacking else Recording(message.phase.error))];
    assert sys.View() == Next(s, OwnEvent(message, w, script[0]));
    if raised {
      RequeueAfterPause(sys, w, script[1..]);
    } else {
      RecordOutcome(sys, w, script[1..]);
    }
  }

  method ParkExhausted(sys: System, w: nat, script: seq<Beat>)
    requires IsBusy(sys.View(), w) && sys.workers[w].phase.Publishing? && sys.workers[w].body.JobBody?
    requires Decide(RetryCount(sys.workers[w].header)).Dead?
    modifies sys, sys.db, sys.broker, sys.storage
    ensures sys.View() == Drive(old(sys.View()), w, script)
  {
    var message := sys.workers[w];
    var alive := Turn(sys, w, script);
    if !alive { return; }
    ghost var s := sys.View();
    var raised := sys.broker.Publish(Message(message.body, message.header, InDead, 0), Confirm(script[0].outcome));
    sys.workers := sys.workers[w := message.(phase := if raised then Nacking else Burying(message.phase.error))];
    assert sys.View() == Next(s, OwnEvent(message, w, script[0]));
    if raised {
      RequeueAfterPause(sys, w, script[1..]);
    } else {
      RecordOutcome(sys, w, script[1..]);
    }
  }

  /** handle_failure: a retry copy while attempts remain, a dead copy after. */
  method HandleFailure(sys: System, w: nat, script: seq<Beat>)
    requires IsBusy(sys.View(), w) && sys.workers[w].phase.Publishing? && sys.workers[w].body.JobBody?
    modifies sys, sys.db, sys.broker, sys.storage
    ensures sys.View() == Drive(old(sys.View()), w, script)
  {
    var message := sys.workers[w];
    var retryCount := match message.header case Absent => 0 case Count(n) => n case Corrupt => MAX_RETRIES;
    match Decide(retryCount) {
      case Again(ttlMs) => ScheduleRetry(sys, w, retryCount, ttlMs, script);
      case Dead => ParkExhausted(sys, w, script);
      case IndexError =>
        var alive := Turn(sys, w, script);
        if alive {
          ghost var s := sys.View();
          sys.workers := sys.workers[w := Idle];
          assert sys.View() == Next(s, OwnEvent(message, w, script[0]));
        }
    }
  }

  /** The pipeline and what follows it: commit, then ack. */
  method RunPipelineAndCommit(sys: System, w: nat, script: seq<Beat>)
    requires IsBusy(sys.View(), w) && sys.workers[w].phase.Running? && sys.workers[w].body.JobBody?
    modifies sys, sys.db, sys.broker, sys.storage
    ensures sys.View() == Drive(old(sys.View()), w, script)
  {
    var message := sys.workers[w];
    var alive := Turn(sys, w, script);
    if !alive { return; }
    ghost var s := sys.View();
    var result := script[0].result;
    sys.workers := sys.workers[w := message.(phase := if result.Some? then Completing(result.value)
                                                      else Publishing(script[0].error))];
    assert sys.View() == Next(s, OwnEvent(message, w, script[0]));
    if result.None? {
      HandleFailure(sys, w, script[1..]);
    } else {
      CommitAndAck(sys, w, script[1..]);
    }
  }

  method CommitAndAck(sys: System, w: nat, script: seq<Beat>)
    requires IsBusy(sys.View(), w) && sys.workers[w].phase.Completing? && sys.workers[w].body.JobBody?
    modifies sys, sys.db, sys.broker, sys.storage
    ensures sys.View() == Drive(old(sys.View()), w, script)
  {
    var message := sys.workers[w];
    var alive := Turn(sys, w, script);
    if !alive { return; }
    ghost var s := sys.View();
    var raised := sys.db.Complete(message.body.job, message.phase.transcript, Confirm(script[0].outcome));
    sys.workers := sys.workers[w := message.(phase := if raised then Publishing(script[0].error) else DoneAck)];
    assert sys.View() == Next(s, OwnEvent(message, w, script[0]));
    if raised {
      HandleFailure(sys, w, script[1..]);
    } else {
      AckCommitted(sys, w, script[1..]);
    }
  }

  /** This ack stands inside the try block: if it raises, `handle_failure` runs on a completed job. */
  method AckCommitted(sys: System, w: nat, script: seq<Beat>)
    requires IsBusy(sys.View(), w) && sys.workers[w].phase.DoneAck? && sys.workers[w].body.JobBody?
    modifies sys, sys.db, sys.broker, sys.storage
    ensures sys.View() == Drive(old(sys.View()), w, script)
  {
    var message := sys.workers[w];
    var alive := Turn(sys, w, script);
    if !alive { return; }
    ghost var s := sys.View();
    var raised := sys.broker.Ack(message.id, message.tag, script[0].outcome);
    sys.workers := sys.workers[w := if raised then message.(phase := Publishing(script[0].error)) else Idle];
    assert sys.View() == Next(s, OwnEvent(message, w, script[0]));
    if raised {
      HandleFailure(sys, w, script[1..]);
    }
  }

  /** nack(requeue=False) of a malformed or unknown job's message. */
  method Park(sys: System, w: nat, script: seq<Beat>)
    requires IsBusy(sys.View(), w) && sys.workers[w].phase.RejectPoison?
    modifies sys, sys.db, sys.broker, sys.storage
    ensures sys.View() == Drive(old(sys.View()), w, script)
  {
    var message := sys.workers[w];
    var alive := Turn(sys, w, script);
    if !alive { return; }
    ghost var s := sys.View();
    var _ := sys.broker.Nack(message.id, message.tag, false, script[0].outcome);
    sys.workers := sys.workers[w := Idle];
    assert sys.View() == Next(s, OwnEvent(message, w, script[0]));
  }

  /** ack of a redelivered message whose job is already completed. */
  method AckSkipped(sys: System, w: nat, script: seq<Beat>)
    requires IsBusy(sys.View(), w) && sys.workers[w].phase.SkipAck? && sys.workers[w].body.JobBody?
    modifies sys, sys.db, sys.broker, sys.storage
    ensures sys.View() == Drive(old(sys.View()), w, script)
  {
    var message := sys.workers[w];
    var alive := Turn(sys, w, script);
    if !alive { return; }
    ghost var s := sys.View();
    var _ := sys.broker.Ack(message.id, message.tag, script[0].outcome);
    sys.workers := sys.workers[w := Idle];
    assert sys.View() == Next(s, OwnEvent(message, w, script[0]));
  }

  method ProcessJob(sys: System, w: nat, script: seq<Beat>)
    requires IsBusy(sys.View(), w) && sys.workers[w].phase.Begin? && sys.workers[w].body.JobBody?
    modifies sys, sys.db, sys.broker, sys.storage
    ensures sys.View() == Drive(old(sys.View()), w, script)
  {
    var message := sys.workers[w];
    var alive := Turn(sys, w, script);
    if !alive { return; }
    ghost var s := sys.View();
    var raised := sys.db.MarkProcessing(message.body.job, Confirm(script[0].outcome));
    sys.workers := sys.workers[w := message.(phase := if raised then Publishing(script[0].error) else Running)];
    assert sys.View() == Next(s, OwnEvent(message, w, script[0]));
    if raised {
      HandleFailure(sys, w, script[1..]);
    } else {
      RunPipelineAndCommit(sys, w, script[1..]);
    }
  }

  /** handle_message, from a fresh delivery to the end of the handler or the death of the process. */
  method HandleMessage(sys: System, w: nat, script: seq<Beat>)
    requires IsBusy(sys.View(), w) && sys.workers[w].phase == Start(sys.workers[w].body)
    modifies sys, sys.db, sys.broker, sys.storage
    ensures sys.View() == Drive(old(sys.View()), w, script)
  {
    var message := sys.workers[w];
    if message.body.Malformed? {
      Park(sys, w, script);
      return;
    }
    var alive := Turn(sys, w, script);
    if !alive { return; }
    ghost var s := sys.View();
    var raised, status := sys.db.GetStatus(message.body.job, script[0].outcome);
    if raised {
      sys.workers := sys.workers[w := message.(phase := Nacking)];
      assert sys.View() == Next(s, OwnEvent(message, w, script[0]));
      RequeueAfterPause(sys, w, script[1..]);
    } else if status.None? {
      sys.workers := sys.workers[w := message.(phase := RejectPoison)];
      assert sys.View() == Next(s, OwnEvent(message, w, script[0]));
      Park(sys, w, script[1..]);
    } else if status.value == Completed {
      sys.workers := sys.workers[w := message.(phase := SkipAck)];
      assert sys.View() == Next(s, OwnEvent(message, w, script[0]));
      AckSkipped(sys, w, script[1..]);
    } else {
      sys.workers := sys.workers[w := message.(phase := Begin)];
      assert sys.View() == Next(s, OwnEvent(message, w, script[0]));
      ProcessJob(sys, w, script[1..]);
    }
  }

  /** How many awaits a handler can still make. */
  function AwaitsLeft(p: Phase): nat {
    match p
    case Received => 9
    case Begin => 8
    case Running => 7
    case Completing(_) => 6
    case DoneAck => 5
    case Publishing(_) => 4
    case Recording(_) => 3
    case Burying(_) => 3
    case HandledAck => 2
    case _ => 1
  }

  lemma OwnEventAdvances(s: State, w: nat, b: Beat)
    requires IsBusy(s, w) && (s.workers[w].phase.RejectPoison? || s.workers[w].body.JobBody?)
    ensures var h, h' := s.workers[w], Next(s, OwnEvent(s.workers[w], w, b)).workers[w];
            && IsBusy(s, w)
            && (h'.Busy? ==> h'.body == h.body && h'.id == h.id && AwaitsLeft(h'.phase) < AwaitsLeft(h.phase)
                             && (h'.phase.RejectPoison? || h'.body.JobBody?))
    ensures |Next(s, OwnEvent(s.workers[w], w, b)).msgs| >= |s.msgs|
  {
  }

  /** A handler ends by itself within nine awaits, however they turn out: further beats change nothing. */
  lemma {:induction false} HandlerEnds(s: State, w: nat, script: seq<Beat>, more: seq<Beat>)
    requires IsBusy(s, w) && (s.workers[w].phase.RejectPoison? || s.workers[w].body.JobBody?)
    requires |script| >= AwaitsLeft(s.workers[w].phase)
    ensures Drive(s, w, script + more) == Drive(s, w, script)
    ensures var t := Drive(s, w, script); w < |t.workers| && t.workers[w].Idle?
    decreases |script|
  {
    var s1 := Run(s, Foreign(script[0].others, w));
    ForeignKeepsHandler(s, script[0].others, w);
    OwnEventAdvances(s1, w, script[0]);
    var t := Next(s1, OwnEvent(s1.workers[w], w, script[0]));
    assert (script + more)[0] == script[0] && (script + more)[1..] == script[1..] + more;
    if t.workers[w].Busy? {
      HandlerEnds(t, w, script[1..], more);
    }
  }
}

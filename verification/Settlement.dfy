/**
  * What a fault-free schedule leaves in the status column: with exactly one worker every
  * accepted job ends `completed` or `failed`; with any other number some schedule ends otherwise.
  */
module Settlement {
  import opened Domain
  import opened Protocol
  import opened Wellformed
  import opened RowConsistency
  import opened Sums
  import opened CompletedStable
  import opened FaultFree
  import opened Conservation
  import opened CounterRuns

  predicate HandlerAt(s: State, j: JobId) {
    |s.workers| == 1 && s.workers[0].Busy? && For(s.workers[0].body, j)
  }

  predicate IsRecording(s: State, j: JobId) {
    HandlerAt(s, j) && s.workers[0].phase.Recording?
  }

  predicate IsBurying(s: State, j: JobId) {
    HandlerAt(s, j) && s.workers[0].phase.Burying?
  }

  /** With one worker the status agrees with the transcript and the dead copy, but for the write under way. */
  ghost predicate StatusFits(s: State, j: JobId) {
    && j in s.rows
    && (HasTranscript(s, j) ==> s.rows[j].status.Completed?)
    && (HasDeadCopy(s, j) ==> s.rows[j].status.Failed? || IsBurying(s, j))
    && (IsRecording(s, j) ==> !HasDeadCopy(s, j) && !HasTranscript(s, j))
    && (IsBurying(s, j) ==> !HasTranscript(s, j))
  }

  /** A job whose token a handler carries has neither dead copy nor transcript. */
  lemma CarriedIsOpen(s: State, j: JobId)
    requires Balanced(s, j) && HandlerAt(s, j) && Carries(s.workers[0].phase)
    ensures !HasDeadCopy(s, j) && !HasTranscript(s, j)
  {
    CarrierAlone(s, j, 0, 0);
    forall m | 0 <= m < |s.msgs| ensures !(For(s.msgs[m].body, j) && s.msgs[m].place == InDead) {
      CarrierAlone(s, j, 0, m);
    }
  }

  /** Only a dead publish makes a dead copy of the handled job. */
  lemma NewDeadCopy(s: State, err: string, j: JobId)
    requires WorkReady(s, 0, err) && |s.workers| == 1 && HandlerAt(s, j)
    requires HasDeadCopy(WorkStep(s, 0, FINE, err), j) && !HasDeadCopy(s, j)
    requires !Awaits(s.workers[0]).Reject?
    ensures s.workers[0].phase.Publishing? && IsBurying(WorkStep(s, 0, FINE, err), j)
  {
    var h, t := s.workers[0], WorkStep(s, 0, FINE, err);
    var m :| 0 <= m < |t.msgs| && For(t.msgs[m].body, j) && t.msgs[m].place == InDead;
    WorkFrame(s, 0, err);
  }

  lemma OwnStatusWork(s: State, err: string, j: JobId)
    requires WorkReady(s, 0, err) && |s.workers| == 1 && Balanced(s, j) && StatusFits(s, j) && HandlerAt(s, j)
    ensures StatusFits(WorkStep(s, 0, FINE, err), j)
  {
    var h, t := s.workers[0], WorkStep(s, 0, FINE, err);
    OwnJobStays(s, 0, err, j);
    if Carries(h.phase) { CarriedIsOpen(s, j); }
    if HasDeadCopy(t, j) && !HasDeadCopy(s, j) { NewDeadCopy(s, err, j); }
  }

  lemma OtherStatusWork(s: State, err: string, j: JobId)
    requires WorkReady(s, 0, err) && |s.workers| == 1 && StatusFits(s, j) && !For(s.workers[0].body, j)
    ensures StatusFits(WorkStep(s, 0, FINE, err), j)
  {
    var h, t := s.workers[0], WorkStep(s, 0, FINE, err);
    OtherJobRow(s, 0, err, j);
    WorkFrame(s, 0, err);
    ResumesSameDelivery(s.rows, h, FINE, err);
    if HasDeadCopy(t, j) {
      var m :| 0 <= m < |t.msgs| && For(t.msgs[m].body, j) && t.msgs[m].place == InDead;
      assert m < |s.msgs| && t.msgs[m] == s.msgs[m];
    }
  }

  lemma StatusDeliver(s: State, m: nat, j: JobId)
    requires |s.workers| == 1 && Enabled(s, Deliver(0, m)) && StatusFits(s, j)
    ensures StatusFits(DeliverStep(s, 0, m), j)
  {
    var t := DeliverStep(s, 0, m);
    if HasDeadCopy(t, j) {
      var k :| 0 <= k < |t.msgs| && For(t.msgs[k].body, j) && t.msgs[k].place == InDead;
      assert k != m && t.msgs[k] == s.msgs[k];
    }
  }

  lemma StatusElsewhere(s: State, e: Event, j: JobId)
    requires Wf(s) && |s.workers| == 1 && Enabled(s, e) && Faultless(e) && IsAccepted(s, j) && StatusFits(s, j)
    requires !e.Work? && !e.Deliver?
    ensures StatusFits(Apply(s, e), j)
  {
    var t := Apply(s, e);
    RowsElsewhere(s, e, j);
    WorkersElsewhere(s, e, 0);
    if HasDeadCopy(t, j) {
      var m :| 0 <= m < |t.msgs| && For(t.msgs[m].body, j) && t.msgs[m].place == InDead;
      MessageElsewhere(s, e, j, m);
    }
  }

  lemma StatusOpening(s: State, e: Event, j: JobId)
    requires InOrder(s) && Enabled(s, e) && Faultless(e) && !IsAccepted(s, j) && IsAccepted(Apply(s, e), j)
    ensures StatusFits(Apply(s, e), j)
  {
    OpeningStep(s, e, j);
    var t := Apply(s, e);
    assert j in s.rows && t.rows[j].transcript.None?;
    assert forall m :: 0 <= m < |s.msgs| ==> !For(s.msgs[m].body, j);
    assert forall w :: 0 <= w < |s.workers| && s.workers[w].Busy? ==> !For(s.workers[w].body, j);
  }

  ghost predicate AllStatusesFit(s: State) {
    forall j :: IsAccepted(s, j) ==> StatusFits(s, j)
  }

  lemma StatusStep(s: State, e: Event, j: JobId)
    requires InOrder(s) && |s.workers| == 1 && AllStatusesFit(s) && Enabled(s, e) && Faultless(e)
    requires IsAccepted(Apply(s, e), j)
    ensures StatusFits(Apply(s, e), j)
  {
    if !IsAccepted(s, j) {
      StatusOpening(s, e, j);
    } else if e.Work? {
      if For(s.workers[0].body, j) { OwnStatusWork(s, e.error, j); } else { OtherStatusWork(s, e.error, j); }
    } else if e.Deliver? {
      StatusDeliver(s, e.m, j);
    } else {
      StatusElsewhere(s, e, j);
    }
  }

  lemma {:induction false} StatusesFitAlways(es: seq<Event>)
    requires FaultlessRun(es)
    ensures AllStatusesFit(Run(Init(1), es))
  {
    if es != [] {
      var s, e := Run(Init(1), es[..|es| - 1]), es[|es| - 1];
      StatusesFitAlways(es[..|es| - 1]);
      InOrderAlways(1, es[..|es| - 1]);
      WorkersKeepNumber(1, es[..|es| - 1]);
      if Enabled(s, e) {
        forall j | IsAccepted(Apply(s, e), j) ensures StatusFits(Apply(s, e), j) { StatusStep(s, e, j); }
      }
    }
  }

  /** Completed after 1 to 4 attempts, or failed after exactly 4 with exactly one dead copy. */
  ghost predicate JobSettled(s: State, j: JobId) {
    && HasOutcome(s, j)
    && s.rows[j].status == (if HasTranscript(s, j) then Completed else Failed)
  }

  ghost predicate SettlesOn(n: nat, es: seq<Event>, j: JobId) {
    FaultlessRun(es) && IsAccepted(Run(Init(n), es), j) && !CanMove(Run(Init(n), es)) ==>
      JobSettled(Run(Init(n), es), j)
  }

  ghost predicate SettlesWith(n: nat) {
    forall es, j :: SettlesOn(n, es, j)
  }

  lemma DeadCopyExists(s: State, j: JobId)
    requires DeadCopies(s, j) == 1
    ensures HasDeadCopy(s, j)
  {
    if !HasDeadCopy(s, j) { SumZero(s.msgs, DeadCoin(j)); }
  }

  lemma OneWorkerSettles(es: seq<Event>, j: JobId)
    ensures SettlesOn(1, es, j)
  {
    var s := Run(Init(1), es);
    if FaultlessRun(es) && IsAccepted(s, j) && !CanMove(s) {
      QuiescentOutcome(1, es, j);
      StatusesFitAlways(es);
      InOrderAlways(1, es);
      WorkersKeepNumber(1, es);
      QuietState(s);
      if !HasTranscript(s, j) { DeadCopyExists(s, j); }
    }
  }

  /** Without workers the uploaded job stays where it is. */
  lemma NoWorkerLeavesQueued()
    ensures !SettlesWith(0)
  {
    UploadRun(Policy(false, false, false), 0);
    var s := Run(Init(0), UploadEvents());
    assert IsAccepted(s, 0) && s.rows[0].status == Queued && !CanMove(s);
    assert !SettlesOn(0, UploadEvents(), 0);
  }

  lemma StrandedStill(n: nat)
    requires n >= 2
    ensures !CanMove(Stranded(n)) && IsAccepted(Stranded(n), 0) && !JobSettled(Stranded(n), 0)
  {
    var s := Stranded(n);
    assert forall w :: 0 <= w < |s.workers| ==> s.workers[w].Idle?;
    assert s.msgs == [LATE.(place := Gone), TAKEN.(place := Gone)];
  }

  /** Every quiescent fault-free run leaves every accepted job settled if and only if there is exactly one worker. */
  lemma SettledIff(n: nat)
    ensures SettlesWith(n) <==> n == 1
  {
    if n == 0 {
      NoWorkerLeavesQueued();
    } else if n == 1 {
      forall es, j ensures SettlesOn(1, es, j) { OneWorkerSettles(es, j); }
    } else {
      var es := RaceStrands(Policy(false, false, false), n);
      StrandedStill(n);
      assert !SettlesOn(n, es, 0);
    }
  }
}

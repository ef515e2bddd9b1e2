/** How a job's status moves, against the state diagram in README.md. */
module StatusMachine {
  import opened Domain
  import opened Protocol
  import opened Wellformed
  import opened Sums
  import opened BoundedWork
  import opened CompletedStable
  import opened NoStuck

  /** The arrows of the diagram between two statuses; both terminal states have none. */
  predicate Arrow(a: Status, b: Status) {
    || (a.Queued? && b.Processing?)
    || (a.Processing? && b.Completed?)
    || (a.Processing? && b.Queued?)
    || (a.Processing? && b.Failed?)
    || (a.Processing? && b.Processing?)
  }

  /** The one move the diagram does not draw: a failed job is attempted again, because a live copy of it is left. */
  ghost predicate Revival(s: State, j: JobId, b: Status) {
    j in s.rows && s.rows[j].status.Failed? && b.Processing? && HasLiveMessage(s, j)
  }

  ghost predicate MovesAlongArrows(s: State, t: State) {
    && (forall j :: j in t.rows && j !in s.rows ==> t.rows[j].status.Queued?)
    && forall j :: j in s.rows && j in t.rows && t.rows[j].status != s.rows[j].status ==>
      Arrow(s.rows[j].status, t.rows[j].status) || Revival(s, j, t.rows[j].status)
  }

  ghost predicate DiagramUnder(p: Policy, n: nat) {
    forall es, e :: Obeys(p, Init(n), es + [e]) ==> MovesAlongArrows(Run(Init(n), es), Run(Init(n), es + [e]))
  }

  /** While the only handler works on a started attempt, the row says `processing`. */
  predicate Started(p: Phase) {
    p.Running? || p.Completing? || p.Publishing? || p.Recording? || p.Burying?
  }

  ghost predicate StartedProcessing(s: State) {
    forall w :: 0 <= w < |s.workers| && s.workers[w].Busy?
                && (Started(s.workers[w].phase) || s.workers[w].phase.Begin?) ==>
      && s.workers[w].body.JobBody?
      && (s.workers[w].body.job in s.rows ==>
            if s.workers[w].phase.Begin? then !s.rows[s.workers[w].body.job].status.Completed?
            else s.rows[s.workers[w].body.job].status.Processing?)
  }

  /** The message of an attempt is live when the attempt begins. */
  lemma BeginsLive(s: State, w: nat)
    requires TagsUnique(s) && HandlerOwns(s) && IsBusy(s, w) && s.workers[w].phase.Begin?
    ensures HasLiveMessage(s, s.workers[w].body.job)
  {
    assert Live(s.msgs[s.workers[w].id]);
  }

  lemma StartedWork(p: Policy, s: State, w: nat, o: Outcome, err: string)
    requires TagsUnique(s) && HandlerOwns(s) && |s.workers| <= 1 && StartedProcessing(s) && Enabled(s, Work(w, o, err))
    requires !p.lateAck && !p.lateCommit && !p.lostStart && Permits(p, s, Work(w, o, err))
    ensures StartedProcessing(WorkStep(s, w, o, err))
    ensures MovesAlongArrows(s, WorkStep(s, w, o, err))
  {
    if s.workers[w].phase.Begin? { BeginsLive(s, w); }
  }

  lemma StartedElsewhere(s: State, e: Event)
    requires Wf(s) && |s.workers| <= 1 && StartedProcessing(s) && Enabled(s, e) && !e.Work?
    ensures StartedProcessing(Apply(s, e))
    ensures MovesAlongArrows(s, Apply(s, e))
  {
    var t := Apply(s, e);
    forall j | j in s.rows && j in t.rows ensures t.rows[j].status == s.rows[j].status {
      RowsElsewhere(s, e, j);
    }
    forall j | j in t.rows && j !in s.rows ensures t.rows[j].status.Queued? {
      RowsElsewhere(s, e, j);
    }
    forall w | 0 <= w < |t.workers| && t.workers[w].Busy? && (Started(t.workers[w].phase) || t.workers[w].phase.Begin?)
      ensures s.workers[w].Busy? && s.workers[w].body == t.workers[w].body && t.workers[w].body.JobBody?
      ensures t.workers[w].phase == s.workers[w].phase || (s.workers[w].phase.Running? && !t.workers[w].phase.Begin?)
      ensures t.workers[w].body.job in t.rows ==> t.workers[w].body.job in s.rows
    {
      WorkersElsewhere(s, e, w);
      HandledIsPublished(s, e, w);
    }
  }

  /** A row is inserted before its message exists, so never while a handler runs on the job. */
  lemma HandledIsPublished(s: State, e: Event, w: nat)
    requires Wf(s) && Enabled(s, e) && !e.Work? && w < |s.workers| && s.workers[w].Busy? && s.workers[w].body.JobBody?
    ensures s.workers[w].body.job in Apply(s, e).rows ==> s.workers[w].body.job in s.rows
  {
    assert Published(s.uploads[s.workers[w].body.job].phase);
  }

  lemma {:induction false} StartedAlways(p: Policy, n: nat, es: seq<Event>)
    requires n <= 1 && !p.lateAck && !p.lateCommit && !p.lostStart && Obeys(p, Init(n), es)
    ensures StartedProcessing(Run(Init(n), es))
  {
    if es != [] {
      var s, e := Run(Init(n), es[..|es| - 1]), es[|es| - 1];
      StartedAlways(p, n, es[..|es| - 1]);
      WfAlways(n, es[..|es| - 1]);
      UnstuckAlways(n, es[..|es| - 1]);
      if Enabled(s, e) {
        if e.Work? { StartedWork(p, s, e.w, e.outcome, e.error); } else { StartedElsewhere(s, e); }
      }
    }
  }

  lemma ArrowStep(p: Policy, n: nat, es: seq<Event>, e: Event)
    requires n <= 1 && !p.lateAck && !p.lateCommit && !p.lostStart && Obeys(p, Init(n), es + [e])
    ensures MovesAlongArrows(Run(Init(n), es), Run(Init(n), es + [e]))
  {
    assert (es + [e])[..|es|] == es;
    var s := Run(Init(n), es);
    RunSnoc(Init(n), es, e);
    StartedAlways(p, n, es);
    WfAlways(n, es);
    UnstuckAlways(n, es);
    if Enabled(s, e) {
      if e.Work? { StartedWork(p, s, e.w, e.outcome, e.error); } else { StartedElsewhere(s, e); }
    }
  }

  /** Only `mark_processing` makes a row `processing`. */
  lemma BecomesProcessing(s: State, w: nat, o: Outcome, err: string, j: JobId)
    requires Enabled(s, Work(w, o, err)) && j in s.rows && !s.rows[j].status.Processing?
    requires j in WorkStep(s, w, o, err).rows && WorkStep(s, w, o, err).rows[j].status.Processing?
    ensures s.workers[w].phase.Begin? && For(s.workers[w].body, j)
  {
  }

  /** Under no assumption on faults: with one worker a failed job is attempted again only if a live copy is left. */
  lemma RevivalNeedsLiveCopy(n: nat, es: seq<Event>, e: Event, j: JobId)
    requires n <= 1
    ensures var s, t := Run(Init(n), es), Run(Init(n), es + [e]);
            j in s.rows && j in t.rows && s.rows[j].status.Failed? && t.rows[j].status.Processing? ==>
              HasLiveMessage(s, j)
  {
    var s, t := Run(Init(n), es), Run(Init(n), es + [e]);
    RunSnoc(Init(n), es, e);
    WfAlways(n, es);
    UnstuckAlways(n, es);
    if Enabled(s, e) && j in s.rows && j in t.rows && s.rows[j].status.Failed? && t.rows[j].status.Processing? {
      if e.Work? {
        BecomesProcessing(s, e.w, e.outcome, e.error, j);
        BeginsLive(s, e.w);
      } else {
        RowsElsewhere(s, e, j);
      }
    }
  }

  /* ---------- when `failed` is terminal ---------- */

  ghost predicate IsFailed(s: State, j: JobId) {
    IsAccepted(s, j) && j in s.rows && s.rows[j].status.Failed?
  }

  /** Every run keeps `failed`, looking only at jobs that were never requeued unless told otherwise. */
  ghost predicate FailedFinalWith(n: nat, requeued: bool) {
    forall es, e, j :: KeepsFailed(n, es, e, j, requeued)
  }

  ghost predicate KeepsFailed(n: nat, es: seq<Event>, e: Event, j: JobId, requeued: bool) {
    IsFailed(Run(Init(n), es), j) && (requeued || Requeues(Run(Init(n), es), j) == 0) ==>
      IsFailed(Run(Init(n), es + [e]), j)
  }

  lemma RequeuesGrow(s: State, e: Event, j: JobId)
    requires Enabled(s, e)
    ensures 0 <= Requeues(s, j) <= Requeues(Apply(s, e), j)
  {
    SumNonNegative(s.msgs, RequeueWeight(j));
    var t := Apply(s, e);
    if |t.msgs| > |s.msgs| {
      assert t.msgs == s.msgs + [t.msgs[|s.msgs|]];
      SumAppend(s.msgs, t.msgs[|s.msgs|], RequeueWeight(j));
    } else if t.msgs != s.msgs {
      var i := TouchedMessage(s, e);
      SumUpdate(s.msgs, i, t.msgs[i], RequeueWeight(j));
    }
  }

  lemma TouchedMessage(s: State, e: Event) returns (i: nat)
    requires Enabled(s, e) && |Apply(s, e).msgs| == |s.msgs| && Apply(s, e).msgs != s.msgs
    ensures i < |s.msgs| && Apply(s, e).msgs == s.msgs[i := Apply(s, e).msgs[i]]
    ensures Apply(s, e).msgs[i].body == s.msgs[i].body && Apply(s, e).msgs[i].requeues >= s.msgs[i].requeues
  {
    i := if e.Work? then s.workers[e.w].id else e.m;
  }

  /** A failed job that was never requeued has no active handler. */
  lemma FailedInactive(s: State, w: nat, j: JobId)
    requires Wf(s) && WorkBounded(s) && IsFailed(s, j) && Requeues(s, j) == 0
    requires w < |s.workers| && s.workers[w].Busy? && For(s.workers[w].body, j)
    ensures HandlerWeight(Copies, j)(s.workers[w]) == 0
  {
    assert JobBounded(s, j) && Buried(s, j);
    WeightsNonNegative(Copies, s, j);
    SumMember(s.workers, w, HandlerWeight(Copies, j));
  }

  /** With one worker, `record_retry` never runs on a failed job that was never requeued. */
  ghost predicate RecordingNotFailed(s: State) {
    forall w :: 0 <= w < |s.workers| && s.workers[w].Busy? && s.workers[w].phase.Recording? ==>
      && s.workers[w].body.JobBody?
      && (Requeues(s, s.workers[w].body.job) == 0 ==> !IsFailed(s, s.workers[w].body.job))
  }

  lemma RecordingEntered(s: State, w: nat, o: Outcome, err: string)
    requires Wf(s) && WorkBounded(s) && Enabled(s, Work(w, o, err))
    requires var r := Resumes(s.rows, s.workers[w], o, err); r.Busy? && r.phase.Recording?
    ensures var t, j := WorkStep(s, w, o, err), s.workers[w].body.job;
            Requeues(t, j) == 0 ==> !IsFailed(t, j)
  {
    var h, t := s.workers[w], WorkStep(s, w, o, err);
    assert h.phase.Publishing? && t.rows == s.rows && t.uploads == s.uploads;
    RequeuesGrow(s, Work(w, o, err), h.body.job);
    if IsFailed(s, h.body.job) && Requeues(s, h.body.job) == 0 { FailedInactive(s, w, h.body.job); }
  }

  lemma RecordingWork(s: State, w: nat, o: Outcome, err: string)
    requires Wf(s) && WorkBounded(s) && |s.workers| <= 1 && Enabled(s, Work(w, o, err))
    ensures RecordingNotFailed(WorkStep(s, w, o, err))
  {
    var r := Resumes(s.rows, s.workers[w], o, err);
    if r.Busy? && r.phase.Recording? {
      ResumesSameDelivery(s.rows, s.workers[w], o, err);
      RecordingEntered(s, w, o, err);
    }
  }

  lemma RecordingElsewhere(s: State, e: Event, w: nat)
    requires Wf(s) && RecordingNotFailed(s) && Enabled(s, e) && !e.Work?
    requires var h := Apply(s, e).workers; w < |h| && h[w].Busy? && h[w].phase.Recording?
    ensures var t := Apply(s, e); var j := t.workers[w].body.job;
            t.workers[w].body.JobBody? && (Requeues(t, j) == 0 ==> !IsFailed(t, j))
  {
    WorkersElsewhere(s, e, w);
    var j := s.workers[w].body.job;
    assert s.workers[w] == Apply(s, e).workers[w] && Published(s.uploads[j].phase);
    RequeuesGrow(s, e, j);
    RowsElsewhere(s, e, j);
    if IsAccepted(Apply(s, e), j) && !IsAccepted(s, j) { AcceptanceStep(s, e, j); }
  }

  lemma RecordingStep(s: State, e: Event)
    requires Wf(s) && WorkBounded(s) && |s.workers| <= 1 && RecordingNotFailed(s) && Enabled(s, e)
    ensures RecordingNotFailed(Apply(s, e))
  {
    if e.Work? {
      RecordingWork(s, e.w, e.outcome, e.error);
    } else {
      var t := Apply(s, e);
      forall w | 0 <= w < |t.workers| && t.workers[w].Busy? && t.workers[w].phase.Recording?
        ensures t.workers[w].body.JobBody?
        ensures Requeues(t, t.workers[w].body.job) == 0 ==> !IsFailed(t, t.workers[w].body.job)
      {
        RecordingElsewhere(s, e, w);
      }
    }
  }

  lemma FailedKeptByWork(s: State, w: nat, o: Outcome, err: string, j: JobId)
    requires Wf(s) && WorkBounded(s) && RecordingNotFailed(s) && Enabled(s, Work(w, o, err))
    requires IsFailed(s, j) && Requeues(s, j) == 0
    ensures IsFailed(WorkStep(s, w, o, err), j)
  {
    var h := s.workers[w];
    if For(h.body, j) {
      FailedInactive(s, w, j);
      assert Awaits(h).Exec? ==> Awaits(h).update.Fail?;
    }
  }

  lemma FailedKept(s: State, e: Event, j: JobId)
    requires Wf(s) && WorkBounded(s) && |s.workers| <= 1 && RecordingNotFailed(s) && Enabled(s, e)
    requires IsFailed(s, j) && Requeues(s, j) == 0
    ensures IsFailed(Apply(s, e), j)
  {
    if e.Work? {
      FailedKeptByWork(s, e.w, e.outcome, e.error, j);
    } else {
      RowsElsewhere(s, e, j);
      AcceptedStays(s, e, j);
    }
  }

  lemma {:induction false} RecordingAlways(n: nat, es: seq<Event>)
    requires n <= 1
    ensures RecordingNotFailed(Run(Init(n), es))
  {
    if es != [] {
      var s := Run(Init(n), es[..|es| - 1]);
      RecordingAlways(n, es[..|es| - 1]);
      WfAlways(n, es[..|es| - 1]);
      WorkBoundedAlways(n, es[..|es| - 1]);
      WorkersKeepNumber(n, es[..|es| - 1]);
      if Enabled(s, es[|es| - 1]) { RecordingStep(s, es[|es| - 1]); }
    }
  }

  /** With one worker, a job that failed without ever being requeued stays failed. */
  lemma FailedFinal(n: nat, es: seq<Event>, e: Event, j: JobId)
    requires n <= 1 && IsFailed(Run(Init(n), es), j) && Requeues(Run(Init(n), es), j) == 0
    ensures IsFailed(Run(Init(n), es + [e]), j)
  {
    var s := Run(Init(n), es);
    RunSnoc(Init(n), es, e);
    RecordingAlways(n, es);
    WfAlways(n, es);
    WorkBoundedAlways(n, es);
    WorkersKeepNumber(n, es);
    if Enabled(s, e) { FailedKept(s, e, j); }
  }
}

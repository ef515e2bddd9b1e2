/**
  * With one worker process no accepted job is left `queued` or `processing`
  * without a message that will still be handled.
  */
module NoStuck {
  import opened Domain
  import opened Protocol
  import opened Wellformed
  import opened RowConsistency
  import opened NoLoss

  predicate InProgress(st: Status) {
    st.Queued? || st.Processing?
  }

  ghost predicate HasLiveMessage(s: State, j: JobId) {
    exists m :: 0 <= m < |s.msgs| && For(s.msgs[m].body, j) && Live(s.msgs[m])
  }

  /** The property: a client never polls a job that nothing will move again. */
  ghost predicate NoneStuck(s: State) {
    forall j :: IsAccepted(s, j) && j in s.rows && InProgress(s.rows[j].status) ==> HasLiveMessage(s, j)
  }

  /** The handler will give its message up without touching the row again. */
  predicate Spending(p: Phase) {
    p.RejectPoison? || p.SkipAck? || p.DoneAck? || p.Recording? || p.HandledAck?
  }

  /** A live message that the running handler is not about to give up. */
  ghost predicate Backing(s: State, m: nat) {
    && m < |s.msgs| && Live(s.msgs[m])
    && forall w :: 0 <= w < |s.workers| && s.workers[w].Busy? && s.workers[w].id == m ==> !Spending(s.workers[w].phase)
  }

  ghost predicate IsBacked(s: State, j: JobId) {
    exists m :: 0 <= m < |s.msgs| && For(s.msgs[m].body, j) && Backing(s, m)
  }

  /** Until it has something to acknowledge, the only handler's message is unacked or back in the jobs queue. */
  predicate BeforeAck(p: Phase) {
    p.Received? || p.Begin? || p.Running? || p.Completing?
  }

  ghost predicate HandlerOwns(s: State) {
    forall w :: 0 <= w < |s.workers| && s.workers[w].Busy? && BeforeAck(s.workers[w].phase) ==>
      && s.workers[w].id < |s.msgs|
      && (s.msgs[s.workers[w].id].place == Unacked(s.workers[w].tag) || s.msgs[s.workers[w].id].place == InJobs)
  }

  /** `record_retry` runs only after the retry copy is in the broker. */
  ghost predicate SuccessorFirst(s: State) {
    forall w :: 0 <= w < |s.workers| && s.workers[w].Busy? && s.workers[w].phase.Recording? ==>
      s.workers[w].body.JobBody? && IsBacked(s, s.workers[w].body.job)
  }

  ghost predicate AllBacked(s: State) {
    forall j :: IsAccepted(s, j) && j in s.rows && InProgress(s.rows[j].status) ==> IsBacked(s, j)
  }

  ghost predicate Unstuck(s: State) {
    |s.workers| <= 1 && HandlerOwns(s) && SuccessorFirst(s) && AllBacked(s)
  }

  lemma OwnsWork(s: State, w: nat, o: Outcome, err: string)
    requires TagsUnique(s) && |s.workers| <= 1 && HandlerOwns(s) && Enabled(s, Work(w, o, err))
    ensures HandlerOwns(WorkStep(s, w, o, err))
  {
    ResumesSameDelivery(s.rows, s.workers[w], o, err);
  }

  lemma OwnsDelivered(s: State, w: nat, m: nat)
    requires |s.workers| <= 1 && Enabled(s, Deliver(w, m))
    ensures HandlerOwns(DeliverStep(s, w, m))
  {
  }

  lemma OwnsElsewhere(s: State, e: Event)
    requires HandlerOwns(s) && Enabled(s, e) && !e.Work? && !e.Deliver?
    ensures HandlerOwns(Apply(s, e))
  {
    forall w | 0 <= w < |s.workers| { WorkersElsewhere(s, e, w); }
  }

  lemma OwnsStep(s: State, e: Event)
    requires TagsUnique(s) && |s.workers| <= 1 && HandlerOwns(s) && Enabled(s, e)
    ensures HandlerOwns(Apply(s, e))
  {
    if e.Work? {
      OwnsWork(s, e.w, e.outcome, e.error);
    } else if e.Deliver? {
      OwnsDelivered(s, e.w, e.m);
    } else {
      OwnsElsewhere(s, e);
    }
  }

  /** Everything but a handler's own progress keeps a backing message backing. */
  lemma BackingElsewhere(s: State, e: Event, m: nat)
    requires TagsUnique(s) && |s.workers| <= 1 && HandlerOwns(s) && Enabled(s, e) && Backing(s, m)
    requires s.msgs[m].body.JobBody? && (e.Work? ==> m != s.workers[e.w].id)
    ensures Backing(Apply(s, e), m)
  {
    if e.Work? {
      var t := Apply(s, e);
      ResumesSameDelivery(s.rows, s.workers[e.w], e.outcome, e.error);
      assert t.msgs[m] == s.msgs[m];
    }
  }

  /** A handler's own message backs its job until the handler spends it. */
  lemma OwnBacking(s: State, w: nat, o: Outcome, err: string)
    requires TagsUnique(s) && |s.workers| <= 1 && Enabled(s, Work(w, o, err))
    requires Live(s.msgs[s.workers[w].id]) && !Spending(s.workers[w].phase)
    requires var r := Resumes(s.rows, s.workers[w], o, err); r.Idle? || !Spending(r.phase)
    ensures Backing(WorkStep(s, w, o, err), s.workers[w].id)
  {
  }

  lemma SuccessorBacks(s: State, w: nat, o: Outcome, err: string)
    requires TagsUnique(s) && MessagesKnown(s) && |s.workers| <= 1 && Enabled(s, Work(w, o, err))
    requires var t := WorkStep(s, w, o, err).workers[w]; t.Busy? && t.phase.Recording?
    ensures IsBacked(WorkStep(s, w, o, err), s.workers[w].body.job)
  {
    var t := WorkStep(s, w, o, err);
    assert t.msgs[|s.msgs|] == Successor(s.workers[w]);
    assert Backing(t, |s.msgs|);
  }

  /** A step that leaves the job backed by the same message, or by the successor. */
  lemma StillBacked(s: State, w: nat, o: Outcome, err: string, j: JobId)
    requires Wf(s) && |s.workers| <= 1 && HandlerOwns(s) && Enabled(s, Work(w, o, err)) && IsBacked(s, j)
    requires var r := Resumes(s.rows, s.workers[w], o, err);
             For(s.workers[w].body, j) && !Spending(s.workers[w].phase) && r.Busy? ==>
               !Spending(r.phase) || r.phase.Recording?
    ensures IsBacked(WorkStep(s, w, o, err), j)
  {
    var h, t := s.workers[w], WorkStep(s, w, o, err);
    var r := Resumes(s.rows, h, o, err);
    var m :| 0 <= m < |s.msgs| && For(s.msgs[m].body, j) && Backing(s, m);
    if m != h.id {
      BackingElsewhere(s, Work(w, o, err), m);
      assert For(t.msgs[m].body, j);
    } else if r.Busy? && r.phase.Recording? {
      SuccessorBacks(s, w, o, err);
    } else {
      OwnBacking(s, w, o, err);
      assert For(t.msgs[m].body, j);
    }
  }

  /** An in-progress job was backed before the step, unless the step started its attempt. */
  lemma BackedBefore(s: State, w: nat, o: Outcome, err: string, j: JobId)
    requires Unstuck(s) && Enabled(s, Work(w, o, err)) && IsAccepted(s, j)
    requires !(For(s.workers[w].body, j) && s.workers[w].phase.Begin?)
    requires j in WorkStep(s, w, o, err).rows && InProgress(WorkStep(s, w, o, err).rows[j].status)
    ensures IsBacked(s, j)
  {
  }

  /** An attempt that begins, or fails to begin, stays backed by its own message. */
  lemma BeginBacks(s: State, w: nat, o: Outcome, err: string)
    requires TagsUnique(s) && |s.workers| <= 1 && HandlerOwns(s) && Enabled(s, Work(w, o, err))
    requires s.workers[w].phase.Begin?
    ensures IsBacked(WorkStep(s, w, o, err), s.workers[w].body.job)
  {
    OwnBacking(s, w, o, err);
    assert For(WorkStep(s, w, o, err).msgs[s.workers[w].id].body, s.workers[w].body.job);
  }

  lemma AllBackedWork(s: State, w: nat, o: Outcome, err: string, j: JobId)
    requires Wf(s) && Unstuck(s) && Enabled(s, Work(w, o, err)) && IsAccepted(s, j)
    requires j in WorkStep(s, w, o, err).rows && InProgress(WorkStep(s, w, o, err).rows[j].status)
    ensures IsBacked(WorkStep(s, w, o, err), j)
  {
    if For(s.workers[w].body, j) && s.workers[w].phase.Begin? {
      BeginBacks(s, w, o, err);
    } else {
      BackedBefore(s, w, o, err, j);
      StillBacked(s, w, o, err, j);
    }
  }

  lemma AllBackedElsewhere(s: State, e: Event, j: JobId)
    requires Wf(s) && Unstuck(s) && Enabled(s, e) && !e.Work? && IsBacked(s, j)
    ensures IsBacked(Apply(s, e), j)
  {
    var m :| 0 <= m < |s.msgs| && For(s.msgs[m].body, j) && Backing(s, m);
    BackingElsewhere(s, e, m);
    assert For(Apply(s, e).msgs[m].body, j);
  }

  /** Outside the handler, a row's status never changes, and a new accepted job has its message queued. */
  lemma AcceptedElsewhere(s: State, e: Event, j: JobId)
    requires Wf(s) && Enabled(s, e) && !e.Work? && IsAccepted(Apply(s, e), j) && j in Apply(s, e).rows
    ensures IsAccepted(s, j) ==> j in s.rows && s.rows[j].status == Apply(s, e).rows[j].status
    ensures !IsAccepted(s, j) ==> IsBacked(Apply(s, e), j)
  {
    if !IsAccepted(s, j) {
      var t := Apply(s, e);
      AcceptanceStep(s, e, j);
      assert t.msgs[|s.msgs|].place == InJobs;
      assert Backing(t, |s.msgs|);
    }
  }

  lemma UnstuckStep(s: State, e: Event)
    requires Wf(s) && Unstuck(s) && Enabled(s, e)
    ensures Unstuck(Apply(s, e))
  {
    var t := Apply(s, e);
    OwnsStep(s, e);
    forall j | IsAccepted(t, j) && j in t.rows && InProgress(t.rows[j].status) ensures IsBacked(t, j) {
      if e.Work? {
        AllBackedWork(s, e.w, e.outcome, e.error, j);
      } else {
        AcceptedElsewhere(s, e, j);
        if IsAccepted(s, j) { AllBackedElsewhere(s, e, j); }
      }
    }
    SuccessorFirstStep(s, e);
  }

  lemma RecordingBacked(s: State, w: nat, o: Outcome, err: string)
    requires Wf(s) && |s.workers| <= 1 && Enabled(s, Work(w, o, err))
    ensures SuccessorFirst(WorkStep(s, w, o, err))
  {
    var t := WorkStep(s, w, o, err);
    if t.workers[w].Busy? && t.workers[w].phase.Recording? {
      ResumesSameDelivery(s.rows, s.workers[w], o, err);
      SuccessorBacks(s, w, o, err);
    }
  }

  lemma SuccessorFirstStep(s: State, e: Event)
    requires Wf(s) && Unstuck(s) && Enabled(s, e)
    ensures SuccessorFirst(Apply(s, e))
  {
    var t := Apply(s, e);
    if e.Work? {
      RecordingBacked(s, e.w, e.outcome, e.error);
    } else {
      forall w | 0 <= w < |t.workers| && t.workers[w].Busy? && t.workers[w].phase.Recording?
        ensures t.workers[w].body.JobBody? && IsBacked(t, t.workers[w].body.job)
      {
        WorkersElsewhere(s, e, w);
        AllBackedElsewhere(s, e, s.workers[w].body.job);
      }
    }
  }

  lemma {:induction false} UnstuckAlways(n: nat, es: seq<Event>)
    requires n <= 1
    ensures Unstuck(Run(Init(n), es))
  {
    if es != [] {
      var s, e := Run(Init(n), es[..|es| - 1]), es[|es| - 1];
      UnstuckAlways(n, es[..|es| - 1]);
      WfAlways(n, es[..|es| - 1]);
      if Enabled(s, e) { UnstuckStep(s, e); }
    }
  }

  /** One worker: in every reachable state, a job in progress has a message in a queue or unacked. */
  lemma NeverStuck(n: nat, es: seq<Event>)
    requires n <= 1
    ensures NoneStuck(Run(Init(n), es))
  {
    UnstuckAlways(n, es);
    var s := Run(Init(n), es);
    forall j | IsAccepted(s, j) && j in s.rows && InProgress(s.rows[j].status) ensures HasLiveMessage(s, j) {
      assert IsBacked(s, j);
      var m :| 0 <= m < |s.msgs| && For(s.msgs[m].body, j) && Backing(s, m);
      assert Live(s.msgs[m]);
    }
  }

  /**
    * For any number of workers: a job left without a live message, stranded or not, still
    * has its transcript or a copy in the dead queue.
    */
  lemma StrandedIsKept(n: nat, es: seq<Event>, j: JobId)
    ensures var s := Run(Init(n), es);
            IsAccepted(s, j) && !HasLiveMessage(s, j) ==>
              (j in s.rows && s.rows[j].transcript.Some?) || HasDeadCopy(s, j)
  {
    var s := Run(Init(n), es);
    NothingLostAlways(n, es);
    if IsAccepted(s, j) { assert Kept(s, j); }
  }
}

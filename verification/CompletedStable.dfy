/** `completed` is final with one worker, as long as the commit and its ack report what happened. */
module CompletedStable {
  import opened Domain
  import opened Protocol
  import opened Wellformed

  /**
    * Which misleading raises the environment may produce:
    * `lateAck` - the ack right after `complete` may raise in-process;
    * `lateCommit` - `complete` may raise although Postgres committed it;
    * `lostStart` - `mark_processing` may raise having done nothing.
    */
  datatype Policy = Policy(lateAck: bool, lateCommit: bool, lostStart: bool)

  predicate Permits(p: Policy, s: State, e: Event) {
    e.Work? && IsBusy(s, e.w) ==>
      && (s.workers[e.w].phase.DoneAck? && e.outcome.raised ==> p.lateAck)
      && (s.workers[e.w].phase.Completing? && e.outcome.raised && e.outcome.applied ==> p.lateCommit)
      && (s.workers[e.w].phase.Begin? && e.outcome.raised && !e.outcome.applied ==> p.lostStart)
  }

  ghost predicate Obeys(p: Policy, s: State, es: seq<Event>) {
    es == [] || (Obeys(p, s, es[..|es| - 1]) && Permits(p, Run(s, es[..|es| - 1]), es[|es| - 1]))
  }

  ghost predicate IsCompleted(s: State, j: JobId) {
    IsAccepted(s, j) && j in s.rows && s.rows[j].status.Completed?
  }

  /** One event leaves every completed row exactly as it is. */
  ghost predicate KeepsCompleted(s: State, t: State) {
    forall j :: IsCompleted(s, j) ==> IsCompleted(t, j) && t.rows[j] == s.rows[j]
  }

  ghost predicate StableUnder(p: Policy, n: nat) {
    forall es, e :: Obeys(p, Init(n), es + [e]) ==> KeepsCompleted(Run(Init(n), es), Run(Init(n), es + [e]))
  }

  /** Phases in which the handler may still write to its job's row. */
  predicate MayWrite(p: Phase) {
    p.Begin? || p.Running? || p.Completing? || p.Publishing? || p.Recording? || p.Burying?
  }

  ghost predicate HandledNotCompleted(s: State) {
    forall w :: 0 <= w < |s.workers| && s.workers[w].Busy? && MayWrite(s.workers[w].phase) ==>
      s.workers[w].body.JobBody?
      && (s.workers[w].body.job in s.rows ==> !s.rows[s.workers[w].body.job].status.Completed?)
  }

  lemma HandledAfterWork(p: Policy, s: State, w: nat, o: Outcome, err: string)
    requires |s.workers| <= 1 && HandledNotCompleted(s) && Enabled(s, Work(w, o, err))
    requires !p.lateAck && !p.lateCommit && Permits(p, s, Work(w, o, err))
    ensures HandledNotCompleted(WorkStep(s, w, o, err))
  {
    ResumesSameDelivery(s.rows, s.workers[w], o, err);
  }

  lemma WorkKeepsCompleted(s: State, w: nat, o: Outcome, err: string)
    requires HandledNotCompleted(s) && Enabled(s, Work(w, o, err))
    ensures KeepsCompleted(s, WorkStep(s, w, o, err))
  {
  }

  lemma HandledWork(p: Policy, s: State, w: nat, o: Outcome, err: string)
    requires |s.workers| <= 1 && HandledNotCompleted(s) && Enabled(s, Work(w, o, err))
    requires !p.lateAck && !p.lateCommit && Permits(p, s, Work(w, o, err))
    ensures HandledNotCompleted(WorkStep(s, w, o, err))
    ensures KeepsCompleted(s, WorkStep(s, w, o, err))
  {
    HandledAfterWork(p, s, w, o, err);
    WorkKeepsCompleted(s, w, o, err);
  }

  lemma ElsewhereKeepsCompleted(s: State, e: Event, j: JobId)
    requires Wf(s) && Enabled(s, e) && !e.Work? && IsCompleted(s, j)
    ensures IsCompleted(Apply(s, e), j) && Apply(s, e).rows[j] == s.rows[j]
  {
    RowsElsewhere(s, e, j);
    AcceptedStays(s, e, j);
  }

  lemma HandlerElsewhere(s: State, e: Event, w: nat)
    requires Wf(s) && HandledNotCompleted(s) && Enabled(s, e) && !e.Work?
    requires var h := Apply(s, e).workers; w < |h| && h[w].Busy? && MayWrite(h[w].phase)
    ensures var t := Apply(s, e);
            t.workers[w].body.JobBody?
            && (t.workers[w].body.job in t.rows ==> !t.rows[t.workers[w].body.job].status.Completed?)
  {
    WorkersElsewhere(s, e, w);
    RowsElsewhere(s, e, Apply(s, e).workers[w].body.job);
  }

  lemma HandledElsewhere(s: State, e: Event)
    requires Wf(s) && |s.workers| <= 1 && HandledNotCompleted(s) && Enabled(s, e) && !e.Work?
    ensures HandledNotCompleted(Apply(s, e))
    ensures KeepsCompleted(s, Apply(s, e))
  {
    var t := Apply(s, e);
    forall j | IsCompleted(s, j) ensures IsCompleted(t, j) && t.rows[j] == s.rows[j] {
      ElsewhereKeepsCompleted(s, e, j);
    }
    forall w | 0 <= w < |t.workers| && t.workers[w].Busy? && MayWrite(t.workers[w].phase)
      ensures t.workers[w].body.JobBody?
      ensures t.workers[w].body.job in t.rows ==> !t.rows[t.workers[w].body.job].status.Completed?
    {
      HandlerElsewhere(s, e, w);
    }
  }

  lemma {:induction false} HandledAlways(p: Policy, n: nat, es: seq<Event>)
    requires n <= 1 && !p.lateAck && !p.lateCommit && Obeys(p, Init(n), es)
    ensures HandledNotCompleted(Run(Init(n), es))
  {
    if es != [] {
      var s, e := Run(Init(n), es[..|es| - 1]), es[|es| - 1];
      HandledAlways(p, n, es[..|es| - 1]);
      WfAlways(n, es[..|es| - 1]);
      WorkersKeepNumber(n, es[..|es| - 1]);
      if Enabled(s, e) {
        if e.Work? { HandledWork(p, s, e.w, e.outcome, e.error); } else { HandledElsewhere(s, e); }
      }
    }
  }

  lemma StableStep(p: Policy, n: nat, es: seq<Event>, e: Event)
    requires n <= 1 && !p.lateAck && !p.lateCommit && Obeys(p, Init(n), es + [e])
    ensures KeepsCompleted(Run(Init(n), es), Run(Init(n), es + [e]))
  {
    assert (es + [e])[..|es|] == es;
    var s := Run(Init(n), es);
    RunSnoc(Init(n), es, e);
    HandledAlways(p, n, es);
    WfAlways(n, es);
    WorkersKeepNumber(n, es);
    if Enabled(s, e) {
      if e.Work? { HandledWork(p, s, e.w, e.outcome, e.error); } else { HandledElsewhere(s, e); }
    }
  }

  /** A completed row keeps its status and transcript over every continuation of the run. */
  lemma {:induction false} CompletedForever(p: Policy, n: nat, es: seq<Event>, more: seq<Event>, j: JobId)
    requires n <= 1 && !p.lateAck && !p.lateCommit && Obeys(p, Init(n), es + more) && IsCompleted(Run(Init(n), es), j)
    ensures IsCompleted(Run(Init(n), es + more), j)
    ensures Run(Init(n), es + more).rows[j] == Run(Init(n), es).rows[j]
    decreases |more|
  {
    if more == [] {
      assert es + more == es;
    } else {
      var k := |more| - 1;
      assert es + more == (es + more[..k]) + [more[k]];
      assert (es + more)[..|es + more| - 1] == es + more[..k];
      CompletedForever(p, n, es, more[..k], j);
      StableStep(p, n, es + more[..k], more[k]);
    }
  }
}

/** No accepted job is ever lost, for any number of workers and any interleaving of faults. */
module NoLoss {
  import opened Domain
  import opened Protocol
  import opened Wellformed
  import opened RowConsistency

  /** From these points on the handler is bound to acknowledge: a successor, a dead copy or a commit exists. */
  predicate Discharging(p: Phase) {
    p.SkipAck? || p.DoneAck? || p.Recording? || p.Burying? || p.HandledAck?
  }

  /** A live message that no handler has discharged by a successor publish or a commit. */
  ghost predicate Undischarged(s: State, m: nat) {
    && m < |s.msgs|
    && Live(s.msgs[m])
    && (s.msgs[m].place.Unacked? ==>
          forall w :: 0 <= w < |s.workers| && s.workers[w].Busy? && s.workers[w].tag == s.msgs[m].place.tag ==>
            !Discharging(s.workers[w].phase))
  }

  ghost predicate HasToken(s: State, j: JobId) {
    exists m :: 0 <= m < |s.msgs| && For(s.msgs[m].body, j) && Undischarged(s, m)
  }

  ghost predicate Kept(s: State, j: JobId) {
    (j in s.rows && s.rows[j].transcript.Some?) || HasDeadCopy(s, j) || HasToken(s, j)
  }

  ghost predicate NothingLost(s: State) {
    forall j :: IsAccepted(s, j) ==> Kept(s, j)
  }

  /** Another handler's message, or one this handler no longer holds, is left alone. */
  lemma TokenOther(s: State, w: nat, o: Outcome, err: string, m: nat)
    requires TagsUnique(s) && Enabled(s, Work(w, o, err)) && Undischarged(s, m)
    requires m != s.workers[w].id || !Held(s, s.workers[w])
    ensures Undischarged(WorkStep(s, w, o, err), m)
  {
    assert WorkStep(s, w, o, err).msgs[m] == s.msgs[m];
  }

  /** The handler's own message stays a token as long as the handler may still back out. */
  lemma TokenOwn(s: State, w: nat, o: Outcome, err: string)
    requires TagsUnique(s) && Enabled(s, Work(w, o, err)) && Undischarged(s, s.workers[w].id)
    requires var r := Resumes(s.rows, s.workers[w], o, err);
             if r.Busy? then !Discharging(r.phase) else s.workers[w].phase.Publishing? || s.workers[w].phase.Nacking?
    ensures Undischarged(WorkStep(s, w, o, err), s.workers[w].id)
  {
  }

  /** Giving up the token leaves a commit, a dead copy or a successor behind. */
  lemma TokenPassedOn(s: State, w: nat, o: Outcome, err: string)
    requires TagsUnique(s) && Consistent(s) && Enabled(s, Work(w, o, err))
    requires var h := s.workers[w];
             h.body.JobBody? && h.body.job in s.rows && !Discharging(h.phase)
    requires var r := Resumes(s.rows, s.workers[w], o, err);
             r.Busy? && Discharging(r.phase)
    ensures Kept(WorkStep(s, w, o, err), s.workers[w].body.job)
  {
    var h, t := s.workers[w], WorkStep(s, w, o, err);
    if h.phase.Publishing? {
      assert t.msgs[|s.msgs|] == Successor(h);
      if Successor(h).place.InRetry? { assert Undischarged(t, |s.msgs|); }
    }
  }

  /** A handler step either keeps the token, or passes it on. */
  lemma TokenWork(s: State, w: nat, o: Outcome, err: string, j: JobId)
    requires TagsUnique(s) && Consistent(s) && Enabled(s, Work(w, o, err))
    requires HasToken(s, j) && j in s.rows
    ensures Kept(WorkStep(s, w, o, err), j)
  {
    var h, t := s.workers[w], WorkStep(s, w, o, err);
    var m :| 0 <= m < |s.msgs| && For(s.msgs[m].body, j) && Undischarged(s, m);
    var r := Resumes(s.rows, h, o, err);
    if m != h.id || !Held(s, h) {
      TokenOther(s, w, o, err, m);
      assert For(t.msgs[m].body, j);
    } else if r.Busy? && Discharging(r.phase) {
      TokenPassedOn(s, w, o, err);
    } else if h.phase.RejectPoison? {
      assert t.msgs[m].place == InDead || t.msgs[m] == s.msgs[m];
      if t.msgs[m] == s.msgs[m] { assert Undischarged(t, m); }
    } else {
      TokenOwn(s, w, o, err);
      assert For(t.msgs[m].body, j);
    }
  }

  lemma TokenElsewhere(s: State, e: Event, j: JobId)
    requires TagsUnique(s) && Enabled(s, e) && !e.Work? && HasToken(s, j)
    ensures HasToken(Apply(s, e), j)
  {
    var m :| 0 <= m < |s.msgs| && For(s.msgs[m].body, j) && Undischarged(s, m);
    assert Undischarged(Apply(s, e), m);
  }

  lemma KeptStep(s: State, e: Event, j: JobId)
    requires Wf(s) && Consistent(s) && Enabled(s, e) && IsAccepted(s, j) && Kept(s, j)
    ensures Kept(Apply(s, e), j)
  {
    assert IsAccepted(Apply(s, e), j);
    RowsStep(s, e);
    if j in s.rows && s.rows[j].transcript.Some? {
      TranscriptStays(s, e, j);
    } else if HasDeadCopy(s, j) {
      DeadStays(s, e, j);
    } else if e.Work? {
      TokenWork(s, e.w, e.outcome, e.error, j);
    } else {
      TokenElsewhere(s, e, j);
    }
  }

  /** A job is accepted by the confirmed publish of its first message. */
  lemma AcceptedKept(s: State, e: Event, j: JobId)
    requires Wf(s) && Enabled(s, e) && !IsAccepted(s, j) && IsAccepted(Apply(s, e), j)
    ensures Kept(Apply(s, e), j)
  {
    var t := Apply(s, e);
    assert e.Serve? && e.u == j && s.uploads[j].phase.Saved?;
    assert t.msgs[|s.msgs|].place == InJobs;
    assert Undischarged(t, |s.msgs|);
  }

  lemma {:induction false} NothingLostAlways(n: nat, es: seq<Event>)
    ensures NothingLost(Run(Init(n), es))
  {
    if es != [] {
      var s, e := Run(Init(n), es[..|es| - 1]), es[|es| - 1];
      NothingLostAlways(n, es[..|es| - 1]);
      WfAlways(n, es[..|es| - 1]);
      ConsistentAlways(n, es[..|es| - 1]);
      if Enabled(s, e) {
        forall j | IsAccepted(Apply(s, e), j) ensures Kept(Apply(s, e), j) {
          if IsAccepted(s, j) { KeptStep(s, e, j); } else { AcceptedKept(s, e, j); }
        }
      }
    }
  }
}

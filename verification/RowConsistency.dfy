/**
  * What a client can read is consistent in every reachable state: any number of
  * workers, any faults, and progress writes delivered late, lost or reordered.
  */
module RowConsistency {
  import opened Domain
  import opened Protocol
  import opened Wellformed

  predicate RowConsistent(r: Row) {
    && 0.0 <= r.progress <= 1.0
    && (r.status.Completed? ==> r.progress == 1.0 && r.error.None? && r.transcript.Some?)
    && (r.status.Failed? ==> r.error.Some?)
    && (r.transcript.Some? ==>
          && r.language == Some(r.transcript.value.language)
          && r.durationSec == Some(r.transcript.value.duration))
  }

  ghost predicate HasDeadCopy(s: State, j: JobId) {
    exists m :: 0 <= m < |s.msgs| && For(s.msgs[m].body, j) && s.msgs[m].place == InDead
  }

  ghost predicate Consistent(s: State) {
    && (forall j :: j in s.rows ==> RowConsistent(s.rows[j]))
    && (forall p :: p in s.pending ==> 0.0 <= p.value <= 1.0)
    && (forall j :: j in s.rows && s.rows[j].status.Failed? ==> HasDeadCopy(s, j))
    && (forall w :: 0 <= w < |s.workers| && s.workers[w].Busy? && s.workers[w].phase.Burying? ==>
          s.workers[w].body.JobBody? && HasDeadCopy(s, s.workers[w].body.job))
  }

  lemma UpdatedConsistent(r: Row, u: Update)
    requires RowConsistent(r)
    requires u.UpdateProgress? ==> 0.0 <= u.value <= 1.0
    ensures RowConsistent(Updated(r, u))
  {
  }

  /** The dead queue has no consumer. */
  lemma DeadStays(s: State, e: Event, j: JobId)
    requires TagsUnique(s) && Enabled(s, e) && HasDeadCopy(s, j)
    ensures HasDeadCopy(Apply(s, e), j)
  {
    var m :| 0 <= m < |s.msgs| && For(s.msgs[m].body, j) && s.msgs[m].place == InDead;
    var t := Apply(s, e);
    assert m < |t.msgs| && t.msgs[m] == s.msgs[m];
  }

  lemma RowsConsistentWork(s: State, w: nat, o: Outcome, err: string, j: JobId)
    requires Consistent(s) && Enabled(s, Work(w, o, err)) && j in WorkStep(s, w, o, err).rows
    ensures j in s.rows && RowConsistent(WorkStep(s, w, o, err).rows[j])
    ensures WorkStep(s, w, o, err).rows[j].status.Failed? ==>
              s.rows[j].status.Failed? || (s.workers[w].phase.Burying? && s.workers[w].body.job == j)
  {
    var c := Awaits(s.workers[w]);
    if c.Exec? { UpdatedConsistent(s.rows[j], c.update); }
  }

  /** A handler is about to bury its job only when the dead copy is in the broker. */
  lemma BuryingHasDeadCopy(s: State, w: nat, o: Outcome, err: string)
    requires TagsUnique(s) && Consistent(s) && Enabled(s, Work(w, o, err))
    requires var r := WorkStep(s, w, o, err).workers[w]; r.Busy? && r.phase.Burying?
    ensures var t := WorkStep(s, w, o, err); t.workers[w].body.JobBody? && HasDeadCopy(t, t.workers[w].body.job)
  {
    var t := WorkStep(s, w, o, err);
    assert t.msgs[|s.msgs|] == Successor(s.workers[w]);
  }

  lemma ConsistentWork(s: State, w: nat, o: Outcome, err: string)
    requires TagsUnique(s) && Consistent(s) && Enabled(s, Work(w, o, err))
    ensures Consistent(WorkStep(s, w, o, err))
  {
    var t := WorkStep(s, w, o, err);
    forall j | j in t.rows ensures RowConsistent(t.rows[j]) && (t.rows[j].status.Failed? ==> HasDeadCopy(t, j)) {
      RowsConsistentWork(s, w, o, err, j);
      if t.rows[j].status.Failed? { DeadStays(s, Work(w, o, err), j); }
    }
    forall v | 0 <= v < |t.workers| && t.workers[v].Busy? && t.workers[v].phase.Burying?
      ensures t.workers[v].body.JobBody? && HasDeadCopy(t, t.workers[v].body.job)
    {
      if v == w { BuryingHasDeadCopy(s, w, o, err); } else { DeadStays(s, Work(w, o, err), t.workers[v].body.job); }
    }
  }

  lemma ConsistentStep(s: State, e: Event)
    requires TagsUnique(s) && Consistent(s) && Enabled(s, e)
    ensures Consistent(Apply(s, e))
  {
    if e.Work? {
      ConsistentWork(s, e.w, e.outcome, e.error);
    } else {
      var t := Apply(s, e);
      forall j | HasDeadCopy(s, j) ensures HasDeadCopy(t, j) {
        DeadStays(s, e, j);
      }
      if e.Flush? { FlushConsistent(s, e.write, e.outcome); }
      if e.Serve? { ServeConsistent(s, e.u, e.outcome, e.found); }
    }
  }

  lemma FlushConsistent(s: State, p: ProgressWrite, o: Outcome)
    requires Consistent(s) && p in s.pending
    ensures var t := Apply(s, Flush(p, o));
            && (forall j :: j in t.rows ==> RowConsistent(t.rows[j]))
            && (forall j :: j in t.rows ==> t.rows[j].status == s.rows[j].status)
  {
    forall j | j in s.rows ensures RowConsistent(Updated(s.rows[j], UpdateProgress(p.value))) {
      UpdatedConsistent(s.rows[j], UpdateProgress(p.value));
    }
  }

  lemma ServeConsistent(s: State, u: JobId, o: Outcome, found: Option<JobId>)
    requires Consistent(s) && Enabled(s, Serve(u, o, found))
    ensures var t := ServeStep(s, u, o, found);
            && (forall j :: j in t.rows ==> RowConsistent(t.rows[j]))
            && (forall j :: j in t.rows && t.rows[j].status.Failed? ==> j in s.rows && s.rows[j].status.Failed?)
            && t.workers == s.workers && t.pending == s.pending
  {
  }

  /** The main result: every row a client can read, after every schedule. */
  lemma {:induction false} ConsistentAlways(n: nat, es: seq<Event>)
    ensures Consistent(Run(Init(n), es))
  {
    if es != [] {
      var s := Run(Init(n), es[..|es| - 1]);
      ConsistentAlways(n, es[..|es| - 1]);
      WfAlways(n, es[..|es| - 1]);
      if Enabled(s, es[|es| - 1]) {
        ConsistentStep(s, es[|es| - 1]);
      }
    }
  }

  /** Once stored, a transcript stays in the row for as long as the row exists. */
  lemma TranscriptStays(s: State, e: Event, j: JobId)
    requires Enabled(s, e) && j in s.rows && s.rows[j].transcript.Some? && j in Apply(s, e).rows
    requires j < |s.uploads| && !s.uploads[j].phase.Promoted?
    ensures Apply(s, e).rows[j].transcript.Some?
  {
  }
}

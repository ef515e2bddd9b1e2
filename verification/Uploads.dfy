/** `create`: crash consistency of rows, files and messages, and deduplication by content hash. */
module Uploads {
  import opened Domain
  import opened Protocol
  import opened Wellformed
  import opened CompletedStable

  ghost predicate HasMessage(s: State, j: JobId) {
    exists m :: 0 <= m < |s.msgs| && For(s.msgs[m].body, j)
  }

  /** Wherever `create` was stopped, rolled back or raced with a purge: no row without its file. */
  lemma NoRowWithoutFile(n: nat, es: seq<Event>, j: JobId)
    ensures var s := Run(Init(n), es);
            j in s.rows ==>
              && j < |s.uploads|
              && s.rows[j].filePath == FinalPath(s, j)
              && s.rows[j].filePath in s.files
              && s.rows[j].contentHash == s.uploads[j].hash
  {
    WfAlways(n, es);
  }

  /** A job's first message enters the broker only through `create`, after the row was committed. */
  lemma MessageAfterRow(n: nat, es: seq<Event>, e: Event, j: JobId)
    requires HasMessage(Run(Init(n), es + [e]), j) && !HasMessage(Run(Init(n), es), j)
    ensures e.Serve? && e.u == j && j in Run(Init(n), es).rows && j in Run(Init(n), es + [e]).rows
  {
    var s := Run(Init(n), es);
    RunSnoc(Init(n), es, e);
    WfAlways(n, es);
    FirstMessage(s, e, j);
  }

  lemma BodiesKept(s: State, e: Event, m: nat)
    requires Enabled(s, e) && m < |s.msgs|
    ensures m < |Apply(s, e).msgs| && Apply(s, e).msgs[m].body == s.msgs[m].body
  {
  }

  /** A handler's copy is about the job of the message it handles. */
  lemma NewBody(s: State, e: Event)
    requires Wf(s) && Enabled(s, e) && |Apply(s, e).msgs| > |s.msgs|
    ensures |Apply(s, e).msgs| == |s.msgs| + 1
    ensures var b := Apply(s, e).msgs[|s.msgs|].body;
            || b.Malformed?
            || (e.Work? && b == s.msgs[s.workers[e.w].id].body)
            || (e.Serve? && s.uploads[e.u].phase.Saved? && b.job == e.u)
  {
  }

  lemma FirstMessage(s: State, e: Event, j: JobId)
    requires Wf(s) && HasMessage(Next(s, e), j)
    ensures HasMessage(s, j) || (e.Serve? && e.u == j && j in s.rows && j in Next(s, e).rows)
  {
    var t := Next(s, e);
    var m :| 0 <= m < |t.msgs| && For(t.msgs[m].body, j);
    if Enabled(s, e) {
      if m < |s.msgs| {
        BodiesKept(s, e, m);
      } else {
        NewBody(s, e);
        if e.Serve? { RowKeptByPublish(s, e.u, e.outcome, e.found); }
      }
    }
  }

  lemma RowKeptByPublish(s: State, u: JobId, o: Outcome, found: Option<JobId>)
    requires Wf(s) && Enabled(s, Serve(u, o, found)) && s.uploads[u].phase.Saved?
    ensures u in s.rows && u in ServeStep(s, u, o, found).rows
  {
  }

  /** Every message of an accepted job names a file that exists and a row that exists. */
  lemma MessageBacked(n: nat, es: seq<Event>, m: nat)
    ensures var s := Run(Init(n), es);
            m < |s.msgs| && s.msgs[m].body.JobBody? && IsAccepted(s, s.msgs[m].body.job) ==>
              s.msgs[m].body.job in s.rows && s.msgs[m].body.path in s.files
  {
    WfAlways(n, es);
  }

  /* ---------- validation ---------- */

  /** Only uploads that passed the validation have a row, a message, or any phase but arrival and abort. */
  ghost predicate ValidOnly(s: State) {
    && (forall u: JobId :: u < |s.uploads| && !s.uploads[u].phase.Arrived? && !s.uploads[u].phase.Aborted? ==>
          s.uploads[u].valid)
    && (forall u: JobId :: u in s.rows ==> u < |s.uploads| && s.uploads[u].valid)
    && (forall m :: 0 <= m < |s.msgs| && s.msgs[m].body.JobBody? ==>
          s.msgs[m].body.job < |s.uploads| && s.uploads[s.msgs[m].body.job].valid)
  }

  /** What arrived does not change: hash, extension and the verdict of the validation. */
  lemma UploadKept(s: State, e: Event, u: JobId)
    requires Enabled(s, e) && u < |s.uploads|
    ensures u < |Apply(s, e).uploads| && Apply(s, e).uploads[u] == s.uploads[u].(phase := Apply(s, e).uploads[u].phase)
  {
  }

  lemma ValidServe(s: State, u: JobId, o: Outcome, found: Option<JobId>)
    requires ValidOnly(s) && u < |s.uploads| && ServeEnabled(s, u, o, found)
    ensures ValidOnly(ServeStep(s, u, o, found))
  {
  }

  lemma ValidElsewhere(s: State, e: Event)
    requires Wf(s) && ValidOnly(s) && Enabled(s, e) && !e.Serve?
    ensures ValidOnly(Apply(s, e))
  {
    var t := Apply(s, e);
    forall m | 0 <= m < |t.msgs| && t.msgs[m].body.JobBody?
      ensures t.msgs[m].body.job < |s.uploads| && s.uploads[t.msgs[m].body.job].valid
    {
      if m < |s.msgs| { BodiesKept(s, e, m); } else { NewBody(s, e); }
    }
    forall u: JobId | u < |s.uploads| { UploadKept(s, e, u); }
    if !ServerEvent(e) { WorkerSideFrame(s, e); }
  }

  /** On every run: every row, every message and every accepted or deduplicated upload is of a valid file. */
  lemma {:induction false} ValidOnlyAlways(n: nat, es: seq<Event>)
    ensures ValidOnly(Run(Init(n), es))
  {
    if es != [] {
      var s, e := Run(Init(n), es[..|es| - 1]), es[|es| - 1];
      ValidOnlyAlways(n, es[..|es| - 1]);
      WfAlways(n, es[..|es| - 1]);
      if Enabled(s, e) {
        if e.Serve? { ValidServe(s, e.u, e.outcome, e.found); } else { ValidElsewhere(s, e); }
      }
    }
  }

  /* ---------- nothing left behind ---------- */

  /** The API process survives and only the publish may raise. */
  predicate Tidy(s: State, e: Event) {
    && !e.ServerCrash?
    && (e.Serve? && e.u < |s.uploads| && !s.uploads[e.u].phase.Saved? ==> e.outcome.applied && !e.outcome.raised)
  }

  ghost predicate TidyRun(n: nat, es: seq<Event>) {
    es == [] || (TidyRun(n, es[..|es| - 1]) && Tidy(Run(Init(n), es[..|es| - 1]), es[|es| - 1]))
  }

  predicate HoldsTemp(p: UploadPhase) {
    p.Arrived? || p.Hashed? || p.Hit? || p.Missed?
  }

  /** Every file belongs to a row or to a request still under way; no row outlives a failed request. */
  ghost predicate NoOrphans(s: State) {
    && (forall u: JobId :: Temp(u) in s.files ==> u < |s.uploads| && HoldsTemp(s.uploads[u].phase))
    && (forall u: JobId, x :: Final(u, x) in s.files ==>
          u < |s.uploads| && x == s.uploads[u].ext
          && (u in s.rows || s.uploads[u].phase.Promoted? || s.uploads[u].phase.Unsaved?))
    && (forall u :: 0 <= u < |s.uploads| && s.uploads[u].phase.Aborted? ==> u !in s.rows)
  }

  /** What the calls of a tidy request do to its own file, row and phase. */
  lemma TidyServe(s: State, u: JobId, o: Outcome, found: Option<JobId>)
    requires Wf(s) && NoOrphans(s) && Enabled(s, Serve(u, o, found)) && Tidy(s, Serve(u, o, found))
    ensures NoOrphans(ServeStep(s, u, o, found))
  {
    var t := ServeStep(s, u, o, found);
    TidyFiles(s, u, o, found);
    TidyRows(s, u, o, found);
    forall v: JobId, x | Final(v, x) in t.files
      ensures v < |t.uploads| && x == t.uploads[v].ext
      ensures v in t.rows || t.uploads[v].phase.Promoted? || t.uploads[v].phase.Unsaved?
    {
      if Final(v, x) !in s.files { assert Final(v, x) == FinalPath(s, u); }
    }
  }

  lemma TidyFiles(s: State, u: JobId, o: Outcome, found: Option<JobId>)
    requires Wf(s) && Enabled(s, Serve(u, o, found)) && Tidy(s, Serve(u, o, found))
    ensures var t := ServeStep(s, u, o, found);
            var p, q := s.uploads[u].phase, t.uploads[u].phase;
            && t.uploads == s.uploads[u := s.uploads[u].(phase := q)]
            && (Temp(u) in t.files ==> Temp(u) in s.files && (HoldsTemp(p) ==> HoldsTemp(q)))
            && t.files <= s.files + {FinalPath(s, u)}
            && (FinalPath(s, u) in t.files && FinalPath(s, u) !in s.files ==> q.Promoted?)
            && (p.Unsaved? ==> FinalPath(s, u) !in t.files)
  {
  }

  lemma TidyRows(s: State, u: JobId, o: Outcome, found: Option<JobId>)
    requires Wf(s) && Enabled(s, Serve(u, o, found)) && Tidy(s, Serve(u, o, found))
    ensures var t := ServeStep(s, u, o, found);
            && (s.uploads[u].phase.Promoted? ==> u in t.rows)
            && (u in s.rows && u !in t.rows ==> t.uploads[u].phase.Unsaved?)
            && (t.uploads[u].phase.Aborted? ==> u !in t.rows)
            && (forall v :: v != u ==> (v in t.rows <==> v in s.rows))
  {
  }

  lemma {:induction false} TidyAlways(n: nat, es: seq<Event>)
    requires TidyRun(n, es)
    ensures NoOrphans(Run(Init(n), es))
  {
    if es != [] {
      var s, e := Run(Init(n), es[..|es| - 1]), es[|es| - 1];
      TidyAlways(n, es[..|es| - 1]);
      WfAlways(n, es[..|es| - 1]);
      if Enabled(s, e) {
        if !ServerEvent(e) {
          WorkerSideFrame(s, e);
        } else if e.Serve? {
          TidyServe(s, e.u, e.outcome, e.found);
        }
      }
    }
  }

  /**
    * When `create` has answered, however often the publish raised: an accepted upload has its
    * row and its one file, and any other upload has neither row nor file, so it can be retried.
    */
  lemma NothingLeftBehind(n: nat, es: seq<Event>, u: JobId)
    requires TidyRun(n, es)
    ensures var s := Run(Init(n), es);
            u < |s.uploads|
            && (s.uploads[u].phase.Accepted? || s.uploads[u].phase.Deduplicated? || s.uploads[u].phase.Aborted?) ==>
              && Temp(u) !in s.files
              && (u in s.rows <==> s.uploads[u].phase.Accepted?)
              && (forall x :: Final(u, x) in s.files <==> s.uploads[u].phase.Accepted? && x == s.uploads[u].ext)
  {
    TidyAlways(n, es);
    WfAlways(n, es);
  }

  /* ---------- deduplication ---------- */

  /** Past a lookup that found nothing, with the row still to be inserted. */
  predicate PastLookup(p: UploadPhase) {
    p.Missed? || p.Promoted?
  }

  /** The uploads that have a row with the hash, or can still insert one. */
  predicate Adds(s: State, h: string, u: JobId) {
    || (u in s.rows && s.rows[u].contentHash == h)
    || (u < |s.uploads| && s.uploads[u].hash == h && PastLookup(s.uploads[u].phase))
  }

  ghost predicate ClosedFrom(s: State, t: State, h: string) {
    forall u :: Adds(t, h, u) ==> Adds(s, h, u)
  }

  lemma ClosedStep(s: State, e: Event, h: string, k: JobId)
    requires Wf(s) && IsCompleted(s, k) && s.rows[k].contentHash == h
    ensures ClosedFrom(s, Next(s, e), h)
  {
    if Enabled(s, e) {
      if !ServerEvent(e) {
        WorkerSideFrame(s, e);
      } else if e.Serve? {
        ClosedServe(s, e.u, e.outcome, e.found, h, k);
      }
    }
  }

  /** A serve step changes one upload; a row it adds belongs to an upload past its lookup. */
  lemma ServeAdds(s: State, u: JobId, o: Outcome, found: Option<JobId>, h: string, v: JobId)
    requires Wf(s) && u < |s.uploads| && ServeEnabled(s, u, o, found) && Adds(ServeStep(s, u, o, found), h, v)
    ensures Adds(s, h, v)
            || (v == u && s.uploads[u].hash == h && s.uploads[u].phase.Hashed? && !o.raised && found.None?)
  {
  }

  lemma ClosedServe(s: State, u: JobId, o: Outcome, found: Option<JobId>, h: string, k: JobId)
    requires Wf(s) && IsCompleted(s, k) && s.rows[k].contentHash == h && Enabled(s, Serve(u, o, found))
    ensures ClosedFrom(s, ServeStep(s, u, o, found), h)
  {
    assert MatchesHash(s, k, h);
    forall v | Adds(ServeStep(s, u, o, found), h, v) ensures Adds(s, h, v) {
      ServeAdds(s, u, o, found, h, v);
    }
  }

  /**
    * One worker whose commit and ack never misreport: once an accepted job with hash h
    * is completed, only uploads that were already past their lookup can have or get a row for h.
    */
  lemma {:induction false} DedupCloses(p: Policy, n: nat, es: seq<Event>, more: seq<Event>, k: JobId)
    requires n <= 1 && !p.lateAck && !p.lateCommit && Obeys(p, Init(n), es + more)
    requires IsCompleted(Run(Init(n), es), k)
    ensures ClosedFrom(Run(Init(n), es), Run(Init(n), es + more), Run(Init(n), es).rows[k].contentHash)
    decreases |more|
  {
    if more == [] {
      assert es + more == es;
    } else {
      var l := |more| - 1;
      assert es + more == (es + more[..l]) + [more[l]];
      assert (es + more)[..|es + more| - 1] == es + more[..l];
      DedupCloses(p, n, es, more[..l], k);
      CompletedForever(p, n, es, more[..l], k);
      WfAlways(n, es + more[..l]);
      RunSnoc(Init(n), es + more[..l], more[l]);
      ClosedStep(Run(Init(n), es + more[..l]), more[l], Run(Init(n), es).rows[k].contentHash, k);
    }
  }

  /** From then on a lookup for h that does not raise finds a completed job with hash h, and `create` will return it. */
  lemma LookupHits(p: Policy, n: nat, es: seq<Event>, more: seq<Event>, k: JobId, u: JobId, o: Outcome,
                   found: Option<JobId>)
    requires n <= 1 && !p.lateAck && !p.lateCommit && Obeys(p, Init(n), es + more)
    requires IsCompleted(Run(Init(n), es), k)
    requires var s := Run(Init(n), es + more);
             && Enabled(s, Serve(u, o, found)) && !o.raised && s.uploads[u].phase.Hashed?
             && s.uploads[u].hash == Run(Init(n), es).rows[k].contentHash
    ensures var s := Run(Init(n), es + more);
            var t := Next(s, Serve(u, o, found));
            && found.Some? && MatchesHash(s, found.value, s.uploads[u].hash)
            && t.uploads[u].phase == Hit(found.value) && t.rows == s.rows
            && ServerResumes(t.uploads[u], o, None) == Deduplicated(found.value)
  {
    var s := Run(Init(n), es + more);
    CompletedForever(p, n, es, more, k);
    assert MatchesHash(s, k, s.uploads[u].hash);
  }
}

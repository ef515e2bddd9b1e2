/**
  * What every reachable state satisfies, whatever fails and however many workers
  * and uploads run: delivery tags are unique, headers stay on the retry ladder,
  * and `create` is crash-consistent.
  */
module Wellformed {
  import opened Domain
  import opened Retry
  import opened Protocol

  /** Upload phases in which the job message may already be in the broker. */
  predicate Published(p: UploadPhase) {
    p.Accepted? || p.Undoing? || p.Unsaved? || p.Aborted?
  }

  /** Upload phases in which the row must exist, and in which it may exist. */
  predicate MustHaveRow(p: UploadPhase) {
    p.Saved? || p.Accepted?
  }

  predicate MayHaveRow(p: UploadPhase) {
    MustHaveRow(p) || p.Undoing? || p.Aborted?
  }

  /** A message's delivery tag and its handler's copy of it agree. */
  ghost predicate TagsUnique(s: State) {
    && (forall m :: 0 <= m < |s.msgs| && s.msgs[m].place.Unacked? ==> s.msgs[m].place.tag < s.tags)
    && (forall w :: 0 <= w < |s.workers| && s.workers[w].Busy? ==>
          && s.workers[w].id < |s.msgs|
          && s.workers[w].tag < s.tags
          && s.workers[w].body == s.msgs[s.workers[w].id].body
          && s.workers[w].header == s.msgs[s.workers[w].id].header
          && (!s.workers[w].phase.RejectPoison? ==> s.workers[w].body.JobBody?))
    && (forall w, m :: 0 <= w < |s.workers| && s.workers[w].Busy? && 0 <= m < |s.msgs| ==>
          s.msgs[m].place == Unacked(s.workers[w].tag) ==> m == s.workers[w].id)
  }

  /** Job messages are about published uploads, name their file, and stay on the ladder. */
  ghost predicate MessagesKnown(s: State) {
    forall m :: 0 <= m < |s.msgs| && s.msgs[m].body.JobBody? ==>
      && LadderHeader(s.msgs[m].header)
      && s.msgs[m].body.job < |s.uploads|
      && s.msgs[m].body.path == FinalPath(s, s.msgs[m].body.job)
      && Published(s.uploads[s.msgs[m].body.job].phase)
  }

  /** No row without its file; rows exist exactly while `create` says so. */
  ghost predicate RowsBacked(s: State) {
    && (forall j :: j in s.rows ==>
          && j < |s.uploads|
          && MayHaveRow(s.uploads[j].phase)
          && s.rows[j].contentHash == s.uploads[j].hash
          && s.rows[j].filePath == FinalPath(s, j)
          && s.rows[j].filePath in s.files)
    && (forall j :: 0 <= j < |s.uploads| ==>
          && (MustHaveRow(s.uploads[j].phase) ==> j in s.rows)
          && (s.uploads[j].phase.Promoted? ==> FinalPath(s, j) in s.files))
  }

  ghost predicate Wf(s: State) {
    TagsUnique(s) && MessagesKnown(s) && RowsBacked(s)
  }

  /** A handler works on one delivery until it ends. */
  lemma ResumesSameDelivery(rows: map<JobId, Row>, h: Handler, o: Outcome, err: string)
    requires h.Busy? && WorkEnabled(h, o)
    ensures var r := Resumes(rows, h, o, err);
            r.Busy? ==> r == h.(phase := r.phase) && (r.phase.RejectPoison? || h.body.JobBody?)
  {
  }

  lemma TagsSetWorker(s: State, w: nat, h: Handler)
    requires TagsUnique(s) && w < |s.workers| && s.workers[w].Busy?
    requires h.Busy? ==> h == s.workers[w].(phase := h.phase) && (h.phase.RejectPoison? || h.body.JobBody?)
    ensures TagsUnique(SetWorker(s, w, h))
  {
  }

  lemma TagsPerformed(s: State, h: Handler, c: Call)
    requires TagsUnique(s) && h.Busy? && h.id < |s.msgs|
    requires c.Publish? ==> !c.msg.place.Unacked?
    ensures TagsUnique(Performed(s, h, c))
  {
  }

  lemma TagsWork(s: State, w: nat, o: Outcome, err: string)
    requires TagsUnique(s) && IsBusy(s, w) && WorkEnabled(s.workers[w], o)
    ensures TagsUnique(WorkStep(s, w, o, err))
  {
    var h := s.workers[w];
    var s1 := if o.applied then Performed(s, h, Awaits(h)) else s;
    TagsPerformed(s, h, Awaits(h));
    ResumesSameDelivery(s.rows, h, o, err);
    TagsSetWorker(s1, w, Resumes(s.rows, h, o, err));
  }

  lemma ServeSide(s: State, u: JobId, o: Outcome, found: Option<JobId>)
    requires u < |s.uploads|
    ensures var t := ServeStep(s, u, o, found);
            && t.workers == s.workers && t.tags == s.tags && |t.msgs| >= |s.msgs|
            && (forall m :: 0 <= m < |s.msgs| ==> t.msgs[m] == s.msgs[m])
            && (forall m :: |s.msgs| <= m < |t.msgs| ==> t.msgs[m].place == InJobs)
  {
  }

  lemma TagsServe(s: State, u: JobId, o: Outcome, found: Option<JobId>)
    requires TagsUnique(s) && u < |s.uploads|
    ensures TagsUnique(ServeStep(s, u, o, found))
  {
    ServeSide(s, u, o, found);
  }

  lemma TagsDeliver(s: State, w: nat, m: nat)
    requires TagsUnique(s) && Enabled(s, Deliver(w, m))
    ensures TagsUnique(DeliverStep(s, w, m))
  {
  }

  lemma TagsElsewhere(s: State, e: Event)
    requires TagsUnique(s) && Enabled(s, e)
    requires !e.Work? && !e.Serve? && !e.Deliver? && !e.Pipeline? && !e.Crash?
    ensures TagsUnique(Apply(s, e))
  {
  }

  lemma TagsStep(s: State, e: Event)
    requires TagsUnique(s) && Enabled(s, e)
    ensures TagsUnique(Apply(s, e))
  {
    match e {
      case Work(w, o, err) => TagsWork(s, w, o, err);
      case Serve(u, o, found) => TagsServe(s, u, o, found);
      case Deliver(w, m) => TagsDeliver(s, w, m);
      case Pipeline(w, r, err) => TagsSetWorker(s, w, Apply(s, e).workers[w]);
      case Crash(w) =>
        if s.workers[w].Busy? { TagsSetWorker(s, w, Idle); } else { assert s.workers[w := Idle] == s.workers; }
      case _ => TagsElsewhere(s, e);
    }
  }

  lemma MessagesWork(s: State, w: nat, o: Outcome, err: string)
    requires TagsUnique(s) && MessagesKnown(s) && IsBusy(s, w) && WorkEnabled(s.workers[w], o)
    ensures MessagesKnown(WorkStep(s, w, o, err))
  {
    var h := s.workers[w];
    if h.body.JobBody? {
      LadderDescends(h.header);
    }
  }

  lemma MessagesServe(s: State, u: JobId, o: Outcome, found: Option<JobId>)
    requires MessagesKnown(s) && u < |s.uploads| && ServeEnabled(s, u, o, found)
    ensures MessagesKnown(ServeStep(s, u, o, found))
  {
  }

  lemma MessagesStep(s: State, e: Event)
    requires TagsUnique(s) && MessagesKnown(s) && Enabled(s, e)
    ensures MessagesKnown(Apply(s, e))
  {
    match e {
      case Work(w, o, err) => MessagesWork(s, w, o, err);
      case Serve(u, o, found) => MessagesServe(s, u, o, found);
      case _ =>
    }
  }

  /** The worker changes neither which rows exist nor their hash and path. */
  lemma WriteKeepsIdentity(rows: map<JobId, Row>, j: JobId, u: Update)
    ensures var r := Write(rows, j, u);
            && r.Keys == rows.Keys
            && forall k :: k in rows ==> r[k].contentHash == rows[k].contentHash && r[k].filePath == rows[k].filePath
  {
  }

  /** Promote, save and undo are the calls that change files and rows together with the phase. */
  lemma RowsPromote(s: State, u: JobId, o: Outcome)
    requires RowsBacked(s) && u < |s.uploads| && ServeEnabled(s, u, o, None)
    requires s.uploads[u].phase.Missed? || s.uploads[u].phase.Unsaved?
    ensures RowsBacked(ServeStep(s, u, o, None))
  {
  }

  lemma RowsSave(s: State, u: JobId, o: Outcome)
    requires RowsBacked(s) && u < |s.uploads| && ServeEnabled(s, u, o, None)
    requires s.uploads[u].phase.Promoted? || s.uploads[u].phase.Undoing?
    ensures RowsBacked(ServeStep(s, u, o, None))
  {
  }

  lemma QuietCall(s: State, u: JobId, o: Outcome, found: Option<JobId>)
    requires u < |s.uploads| && ServeEnabled(s, u, o, found)
    requires var p := s.uploads[u].phase; p.Arrived? || p.Hashed? || p.Hit? || p.Saved?
    ensures var t, p := ServeStep(s, u, o, found), s.uploads[u].phase;
            var q := t.uploads[u].phase;
            && t.rows == s.rows && (t.files == s.files || t.files == s.files - {Temp(u)})
            && t.uploads == s.uploads[u := s.uploads[u].(phase := q)]
            && (MayHaveRow(p) ==> MayHaveRow(q)) && (MustHaveRow(q) ==> MustHaveRow(p)) && !q.Promoted?
  {
  }

  lemma RowsOtherCalls(s: State, u: JobId, o: Outcome, found: Option<JobId>)
    requires RowsBacked(s) && u < |s.uploads| && ServeEnabled(s, u, o, found)
    requires var p := s.uploads[u].phase; p.Arrived? || p.Hashed? || p.Hit? || p.Saved?
    ensures RowsBacked(ServeStep(s, u, o, found))
  {
    QuietCall(s, u, o, found);
  }

  lemma RowsServe(s: State, u: JobId, o: Outcome, found: Option<JobId>)
    requires RowsBacked(s) && u < |s.uploads| && ServeEnabled(s, u, o, found)
    ensures RowsBacked(ServeStep(s, u, o, found))
  {
    var p := s.uploads[u].phase;
    if p.Missed? || p.Unsaved? {
      RowsPromote(s, u, o);
      assert ServeStep(s, u, o, found) == ServeStep(s, u, o, None);
    } else if p.Promoted? || p.Undoing? {
      RowsSave(s, u, o);
      assert ServeStep(s, u, o, found) == ServeStep(s, u, o, None);
    } else {
      RowsOtherCalls(s, u, o, found);
    }
  }

  /** Only `create` and a purge touch files, uploads and the set of rows. */
  predicate ServerEvent(e: Event) {
    e.Arrive? || e.Serve? || e.ServerCrash? || e.Purge?
  }

  lemma WorkerSideFrame(s: State, e: Event)
    requires Enabled(s, e) && !ServerEvent(e)
    ensures var t := Apply(s, e);
            && t.uploads == s.uploads && t.files == s.files && t.rows.Keys == s.rows.Keys
            && forall k :: k in s.rows ==>
                 t.rows[k].contentHash == s.rows[k].contentHash && t.rows[k].filePath == s.rows[k].filePath
  {
    match e {
      case Work(w, o, err) =>
        var c := Awaits(s.workers[w]);
        if c.Exec? { WriteKeepsIdentity(s.rows, c.job, c.update); }
      case Flush(p, o) => WriteKeepsIdentity(s.rows, p.job, UpdateProgress(p.value));
      case _ =>
    }
  }

  lemma RowsStep(s: State, e: Event)
    requires RowsBacked(s) && Enabled(s, e)
    ensures RowsBacked(Apply(s, e))
  {
    if !ServerEvent(e) {
      WorkerSideFrame(s, e);
    } else if e.Serve? {
      RowsServe(s, e.u, e.outcome, e.found);
    }
  }

  ghost predicate RowMovedElsewhere(s: State, t: State, j: JobId) {
    && (j in s.rows && IsAccepted(s, j) ==> j in t.rows)
    && (j in t.rows && j !in s.rows ==> t.rows[j].status.Queued? && t.rows[j].attempts == 0 && !IsAccepted(t, j))
    && (j in t.rows && j in s.rows ==>
          t.rows[j] == s.rows[j]
          || (s.rows[j].status.Processing? && t.rows[j] == s.rows[j].(progress := t.rows[j].progress)))
  }

  lemma RowsMovedByServe(s: State, u: JobId, o: Outcome, found: Option<JobId>, j: JobId)
    requires RowsBacked(s) && u < |s.uploads| && ServeEnabled(s, u, o, found)
    ensures RowMovedElsewhere(s, ServeStep(s, u, o, found), j)
  {
  }

  /** Outside the handlers a row is inserted, deleted before acceptance, or has its progress written. */
  lemma RowsElsewhere(s: State, e: Event, j: JobId)
    requires RowsBacked(s) && Enabled(s, e) && !e.Work?
    ensures RowMovedElsewhere(s, Apply(s, e), j)
  {
    if e.Serve? {
      RowsMovedByServe(s, e.u, e.outcome, e.found, j);
    }
  }

  /** Outside its own awaits a handler is started, hears from the pipeline, or vanishes in a crash. */
  lemma WorkersElsewhere(s: State, e: Event, w: nat)
    requires Enabled(s, e) && !e.Work? && w < |s.workers|
    ensures var h, h' := s.workers[w], Apply(s, e).workers[w];
            || h' == h
            || h'.Idle?
            || (e.Deliver? && h.Idle? && h'.phase == Start(h'.body))
            || (e.Pipeline? && h.Busy? && h.phase.Running? && (h'.phase.Completing? || h'.phase.Publishing?)
                && h' == h.(phase := h'.phase))
  {
  }

  /** Only its own confirmed publish makes an upload accepted. */
  lemma AcceptanceStep(s: State, e: Event, j: JobId)
    requires Enabled(s, e) && !IsAccepted(s, j) && IsAccepted(Apply(s, e), j)
    ensures e.Serve? && e.u == j && s.uploads[j].phase.Saved? && !e.outcome.raised
  {
  }

  /** Acceptance is final. */
  lemma AcceptedStays(s: State, e: Event, j: JobId)
    requires Enabled(s, e) && IsAccepted(s, j)
    ensures IsAccepted(Apply(s, e), j)
  {
  }

  lemma WfNext(s: State, e: Event)
    requires Wf(s)
    ensures Wf(Next(s, e))
  {
    if Enabled(s, e) {
      TagsStep(s, e);
      MessagesStep(s, e);
      RowsStep(s, e);
    }
  }

  /** The invariant holds after every schedule. */
  lemma {:induction false} WfAlways(n: nat, es: seq<Event>)
    ensures Wf(Run(Init(n), es))
  {
    if es != [] {
      WfAlways(n, es[..|es| - 1]);
      WfNext(Run(Init(n), es[..|es| - 1]), es[|es| - 1]);
    }
  }
}

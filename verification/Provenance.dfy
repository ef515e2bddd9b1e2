/**
  * Where stored values come from: every transcript, error and progress value in a row, and
  * every header and delay on a copy, is traced back to the event that produced it.
  */
module Provenance {
  import opened Domain
  import opened Retry
  import opened Protocol
  import opened Wellformed

  /* ---------- one call, column by column ---------- */

  predicate Writes(s: State, w: nat, o: Outcome, err: string) {
    && Enabled(s, Work(w, o, err)) && o.applied && s.workers[w].body.JobBody? && s.workers[w].body.job in s.rows
  }

  predicate SameOtherRows(s: State, t: State, j: JobId) {
    t.rows.Keys == s.rows.Keys && forall k :: k in s.rows && k != j ==> t.rows[k] == s.rows[k]
  }

  /** An attempt that starts: processing, one more attempt, progress back to 0, nothing else. */
  lemma StartWrites(s: State, w: nat, o: Outcome, err: string)
    requires Writes(s, w, o, err) && s.workers[w].phase.Begin?
    ensures var t, j := Next(s, Work(w, o, err)), s.workers[w].body.job;
            && SameOtherRows(s, t, j)
            && t.rows[j] == s.rows[j].(status := Processing, attempts := t.rows[j].attempts, progress := 0.0)
            && t.rows[j].attempts == s.rows[j].attempts + 1
  {
  }

  /** A commit stores the transcript itself, with its language and duration, and clears the error. */
  lemma CommitWrites(s: State, w: nat, o: Outcome, err: string)
    requires Writes(s, w, o, err) && s.workers[w].phase.Completing?
    ensures var t, j, result := Next(s, Work(w, o, err)), s.workers[w].body.job, s.workers[w].phase.transcript;
            && SameOtherRows(s, t, j)
            && t.rows[j].transcript == Some(result)
            && t.rows[j].language == Some(result.language) && t.rows[j].durationSec == Some(result.duration)
            && t.rows[j].status == Completed && t.rows[j].progress == 1.0 && t.rows[j].error == None
            && t.rows[j].attempts == s.rows[j].attempts
            && t.rows[j].contentHash == s.rows[j].contentHash && t.rows[j].filePath == s.rows[j].filePath
  {
  }

  /** `record_retry` and `fail` set the status and keep the text of the exception, nothing else. */
  lemma FailureWrites(s: State, w: nat, o: Outcome, err: string)
    requires Writes(s, w, o, err) && (s.workers[w].phase.Recording? || s.workers[w].phase.Burying?)
    ensures var t, j, h := Next(s, Work(w, o, err)), s.workers[w].body.job, s.workers[w];
            && SameOtherRows(s, t, j)
            && t.rows[j] == s.rows[j].(status := t.rows[j].status, error := Some(h.phase.error))
            && t.rows[j].status == if h.phase.Recording? then Queued else Failed
  {
  }

  /** A late progress write changes the progress of a processing row and nothing else at all. */
  lemma ProgressWrites(s: State, p: ProgressWrite, o: Outcome)
    requires Enabled(s, Flush(p, o)) && p.job in s.rows
    ensures var t := Next(s, Flush(p, o));
            && SameOtherRows(s, t, p.job)
            && t.rows[p.job] == s.rows[p.job].(progress := t.rows[p.job].progress)
            && t.rows[p.job].progress
               == (if o.applied && s.rows[p.job].status == Processing then p.value else s.rows[p.job].progress)
  {
  }

  /** A report of the running attempt becomes one pending write for its job, whatever was pending. */
  lemma ReportQueued(s: State, w: nat, v: real)
    requires Enabled(s, Report(w, v))
    ensures var t := Next(s, Report(w, v));
            && t.pending == s.pending + multiset{ProgressWrite(s.workers[w].body.job, v)}
            && t.rows == s.rows && t.msgs == s.msgs && t.workers == s.workers
  {
  }

  /* ---------- the events that produce a value ---------- */

  predicate HandlesJob(s: State, w: nat, j: JobId) {
    IsBusy(s, w) && For(s.workers[w].body, j)
  }

  predicate Attempting(s: State, w: nat, j: JobId) {
    HandlesJob(s, w, j) && s.workers[w].phase.Running?
  }

  predicate Yields(s: State, e: Event, j: JobId, t: Transcript) {
    e.Pipeline? && e.result == Some(t) && Attempting(s, e.w, j)
  }

  /** The pipeline failed with this text, or a call of the attempt raised with it. */
  predicate Raises(s: State, e: Event, j: JobId, text: string) {
    || (e.Pipeline? && e.result == None && e.error == text && Attempting(s, e.w, j))
    || (e.Work? && e.outcome.raised && e.error == text && HandlesJob(s, e.w, j))
  }

  predicate Reports(s: State, e: Event, j: JobId, v: real) {
    e.Report? && e.value == v && Attempting(s, e.w, j)
  }

  /** Some event of the run yielded the transcript while a worker attempted the job. */
  ghost predicate Produced(n: nat, es: seq<Event>, j: JobId, t: Transcript) {
    exists i :: 0 <= i < |es| && Yields(Run(Init(n), es[..i]), es[i], j, t)
  }

  ghost predicate Blamed(n: nat, es: seq<Event>, j: JobId, text: string) {
    exists i :: 0 <= i < |es| && Raises(Run(Init(n), es[..i]), es[i], j, text)
  }

  ghost predicate Reported(n: nat, es: seq<Event>, j: JobId, v: real) {
    exists i :: 0 <= i < |es| && Reports(Run(Init(n), es[..i]), es[i], j, v)
  }

  lemma ProducedStays(n: nat, es: seq<Event>, e: Event, j: JobId, t: Transcript)
    ensures Produced(n, es, j, t) || Yields(Run(Init(n), es), e, j, t) ==> Produced(n, es + [e], j, t)
  {
    if Produced(n, es, j, t) {
      var i :| 0 <= i < |es| && Yields(Run(Init(n), es[..i]), es[i], j, t);
      assert (es + [e])[..i] == es[..i] && (es + [e])[i] == es[i];
    } else if Yields(Run(Init(n), es), e, j, t) {
      assert (es + [e])[..|es|] == es && (es + [e])[|es|] == e;
    }
  }

  lemma BlamedStays(n: nat, es: seq<Event>, e: Event, j: JobId, text: string)
    ensures Blamed(n, es, j, text) || Raises(Run(Init(n), es), e, j, text) ==> Blamed(n, es + [e], j, text)
  {
    if Blamed(n, es, j, text) {
      var i :| 0 <= i < |es| && Raises(Run(Init(n), es[..i]), es[i], j, text);
      assert (es + [e])[..i] == es[..i] && (es + [e])[i] == es[i];
    } else if Raises(Run(Init(n), es), e, j, text) {
      assert (es + [e])[..|es|] == es && (es + [e])[|es|] == e;
    }
  }

  lemma ReportedStays(n: nat, es: seq<Event>, e: Event, j: JobId, v: real)
    ensures Reported(n, es, j, v) || Reports(Run(Init(n), es), e, j, v) ==> Reported(n, es + [e], j, v)
  {
    if Reported(n, es, j, v) {
      var i :| 0 <= i < |es| && Reports(Run(Init(n), es[..i]), es[i], j, v);
      assert (es + [e])[..i] == es[..i] && (es + [e])[i] == es[i];
    } else if Reports(Run(Init(n), es), e, j, v) {
      assert (es + [e])[..|es|] == es && (es + [e])[|es|] == e;
    }
  }

  /* ---------- what one event can change ---------- */

  /** A row keeps its values, is inserted empty, or takes them from its handler or a pending write. */
  ghost predicate RowSource(s: State, e: Event, j: JobId, r: Row) {
    var was := if j in s.rows then s.rows[j] else r.(transcript := None, error := None, progress := 0.0);
    && (r.transcript == was.transcript
        || (e.Work? && HandlesJob(s, e.w, j) && s.workers[e.w].phase.Completing?
            && r.transcript == Some(s.workers[e.w].phase.transcript)))
    && (r.error == was.error || r.error == None
        || (e.Work? && HandlesJob(s, e.w, j) && (s.workers[e.w].phase.Recording? || s.workers[e.w].phase.Burying?)
            && r.error == Some(s.workers[e.w].phase.error)))
    && (r.progress == was.progress || r.progress == 0.0 || (r.progress == 1.0 && r.transcript.Some?)
        || (e.Flush? && e.write in s.pending && e.write.job == j && r.progress == e.write.value))
    && (was.transcript.Some? ==> r.transcript.Some?)
  }

  lemma RowSourceWork(s: State, w: nat, o: Outcome, err: string, j: JobId)
    requires Enabled(s, Work(w, o, err)) && j in WorkStep(s, w, o, err).rows
    ensures j in s.rows && RowSource(s, Work(w, o, err), j, WorkStep(s, w, o, err).rows[j])
  {
  }

  lemma RowSourceServe(s: State, u: JobId, o: Outcome, found: Option<JobId>, j: JobId)
    requires RowsBacked(s) && Enabled(s, Serve(u, o, found)) && j in ServeStep(s, u, o, found).rows
    ensures RowSource(s, Serve(u, o, found), j, ServeStep(s, u, o, found).rows[j])
  {
  }

  lemma RowSourceStep(s: State, e: Event, j: JobId)
    requires RowsBacked(s) && Enabled(s, e) && j in Apply(s, e).rows
    ensures RowSource(s, e, j, Apply(s, e).rows[j])
  {
    match e {
      case Work(w, o, err) => RowSourceWork(s, w, o, err, j);
      case Serve(u, o, found) => RowSourceServe(s, u, o, found, j);
      case _ =>
    }
  }

  /** What a handler carries it carried before, or got from this very event. */
  ghost predicate HandlerSource(s: State, e: Event, w: nat, h: Handler)
    requires h.Busy?
  {
    && (h.phase.Completing? && h.body.JobBody? ==>
          (w < |s.workers| && s.workers[w] == h) || Yields(s, e, h.body.job, h.phase.transcript))
    && (h.body.JobBody? && (h.phase.Publishing? || h.phase.Recording? || h.phase.Burying?) ==>
          || (w < |s.workers| && HandlesJob(s, w, h.body.job)
              && (s.workers[w].phase.Publishing? || s.workers[w].phase.Recording? || s.workers[w].phase.Burying?)
              && s.workers[w].phase.error == h.phase.error)
          || Raises(s, e, h.body.job, h.phase.error))
  }

  lemma HandlerSourceWork(s: State, w: nat, o: Outcome, err: string)
    requires Enabled(s, Work(w, o, err))
    ensures var h := WorkStep(s, w, o, err).workers[w]; h.Busy? ==> HandlerSource(s, Work(w, o, err), w, h)
  {
  }

  lemma HandlerSourceStep(s: State, e: Event, w: nat)
    requires TagsUnique(s) && Enabled(s, e) && w < |Apply(s, e).workers| && Apply(s, e).workers[w].Busy?
    ensures HandlerSource(s, e, w, Apply(s, e).workers[w])
  {
    if e.Work? {
      if e.w == w { HandlerSourceWork(s, w, e.outcome, e.error); }
    } else {
      WorkersElsewhere(s, e, w);
    }
  }

  lemma PendingSource(s: State, e: Event, p: ProgressWrite)
    requires Enabled(s, e) && p in Apply(s, e).pending
    ensures p in s.pending || Reports(s, e, p.job, p.value)
  {
  }

  /* ---------- over every run ---------- */

  ghost predicate RowTraced(n: nat, es: seq<Event>, j: JobId, r: Row) {
    && (r.transcript.Some? ==> Produced(n, es, j, r.transcript.value))
    && (r.error.Some? ==> Blamed(n, es, j, r.error.value))
    && (r.progress == 0.0 || (r.progress == 1.0 && r.transcript.Some?) || Reported(n, es, j, r.progress))
  }

  ghost predicate HandlerTraced(n: nat, es: seq<Event>, h: Handler)
    requires h.Busy?
  {
    && (h.body.JobBody? && h.phase.Completing? ==> Produced(n, es, h.body.job, h.phase.transcript))
    && (h.body.JobBody? && (h.phase.Publishing? || h.phase.Recording? || h.phase.Burying?) ==>
          Blamed(n, es, h.body.job, h.phase.error))
  }

  ghost predicate Traced(n: nat, es: seq<Event>, s: State) {
    && (forall j :: j in s.rows ==> RowTraced(n, es, j, s.rows[j]))
    && (forall w :: 0 <= w < |s.workers| && s.workers[w].Busy? ==> HandlerTraced(n, es, s.workers[w]))
    && (forall p :: p in s.pending ==> Reported(n, es, p.job, p.value))
  }

  lemma RowTracedStep(n: nat, es: seq<Event>, e: Event, j: JobId)
    requires var s := Run(Init(n), es); RowsBacked(s) && Traced(n, es, s) && Enabled(s, e) && j in Apply(s, e).rows
    requires TagsUnique(Run(Init(n), es))
    ensures RowTraced(n, es + [e], j, Apply(Run(Init(n), es), e).rows[j])
  {
    var s := Run(Init(n), es);
    var r := Apply(s, e).rows[j];
    RowSourceStep(s, e, j);
    if j in s.rows { assert RowTraced(n, es, j, s.rows[j]); }
    if e.Work? && HandlesJob(s, e.w, j) { assert HandlerTraced(n, es, s.workers[e.w]); }
    if r.transcript.Some? { ProducedStays(n, es, e, j, r.transcript.value); }
    if r.error.Some? { BlamedStays(n, es, e, j, r.error.value); }
    ReportedStays(n, es, e, j, r.progress);
  }

  lemma HandlerTracedStep(n: nat, es: seq<Event>, e: Event, w: nat)
    requires var s := Run(Init(n), es); TagsUnique(s) && Traced(n, es, s) && Enabled(s, e)
    requires var t := Apply(Run(Init(n), es), e); w < |t.workers| && t.workers[w].Busy?
    ensures HandlerTraced(n, es + [e], Apply(Run(Init(n), es), e).workers[w])
  {
    var s := Run(Init(n), es);
    var h := Apply(s, e).workers[w];
    HandlerSourceStep(s, e, w);
    if w < |s.workers| && s.workers[w].Busy? { assert HandlerTraced(n, es, s.workers[w]); }
    if h.body.JobBody? && h.phase.Completing? { ProducedStays(n, es, e, h.body.job, h.phase.transcript); }
    if h.body.JobBody? && (h.phase.Publishing? || h.phase.Recording? || h.phase.Burying?) {
      BlamedStays(n, es, e, h.body.job, h.phase.error);
    }
  }

  lemma TracedNext(n: nat, es: seq<Event>, e: Event)
    requires var s := Run(Init(n), es); Wf(s) && Traced(n, es, s)
    ensures Traced(n, es + [e], Run(Init(n), es + [e]))
  {
    var s, t := Run(Init(n), es), Run(Init(n), es + [e]);
    RunSnoc(Init(n), es, e);
    forall j | j in t.rows ensures RowTraced(n, es + [e], j, t.rows[j]) {
      if Enabled(s, e) { RowTracedStep(n, es, e, j); } else { RowTracedIdle(n, es, e, j, t.rows[j]); }
    }
    forall w | 0 <= w < |t.workers| && t.workers[w].Busy? ensures HandlerTraced(n, es + [e], t.workers[w]) {
      if Enabled(s, e) { HandlerTracedStep(n, es, e, w); } else { HandlerTracedIdle(n, es, e, t.workers[w]); }
    }
    forall p | p in t.pending ensures Reported(n, es + [e], p.job, p.value) {
      if Enabled(s, e) { PendingSource(s, e, p); }
      ReportedStays(n, es, e, p.job, p.value);
    }
  }

  lemma RowTracedIdle(n: nat, es: seq<Event>, e: Event, j: JobId, r: Row)
    requires RowTraced(n, es, j, r)
    ensures RowTraced(n, es + [e], j, r)
  {
    if r.transcript.Some? { ProducedStays(n, es, e, j, r.transcript.value); }
    if r.error.Some? { BlamedStays(n, es, e, j, r.error.value); }
    ReportedStays(n, es, e, j, r.progress);
  }

  lemma HandlerTracedIdle(n: nat, es: seq<Event>, e: Event, h: Handler)
    requires h.Busy? && HandlerTraced(n, es, h)
    ensures HandlerTraced(n, es + [e], h)
  {
    if h.body.JobBody? && h.phase.Completing? { ProducedStays(n, es, e, h.body.job, h.phase.transcript); }
    if h.body.JobBody? && (h.phase.Publishing? || h.phase.Recording? || h.phase.Burying?) {
      BlamedStays(n, es, e, h.body.job, h.phase.error);
    }
  }

  lemma {:induction false} TracedAlways(n: nat, es: seq<Event>)
    ensures Traced(n, es, Run(Init(n), es))
  {
    if es != [] {
      var before, e := es[..|es| - 1], es[|es| - 1];
      assert es == before + [e];
      TracedAlways(n, before);
      WfAlways(n, before);
      TracedNext(n, before, e);
    }
  }

  /**
    * For any number of workers and any schedule: a stored transcript of a job is one that the
    * pipeline returned while a worker attempted this job; a stored error is the text of an
    * exception raised while a worker handled it; and stored progress was reported by an
    * attempt at it, unless it is 0, or 1 beside a transcript.
    */
  lemma StoredValuesTraced(n: nat, es: seq<Event>, j: JobId)
    ensures var s := Run(Init(n), es);
            j in s.rows ==>
              && (s.rows[j].transcript.Some? ==> Produced(n, es, j, s.rows[j].transcript.value))
              && (s.rows[j].error.Some? ==> Blamed(n, es, j, s.rows[j].error.value))
              && (s.rows[j].progress == 0.0 || (s.rows[j].progress == 1.0 && s.rows[j].transcript.Some?)
                  || Reported(n, es, j, s.rows[j].progress))
  {
    TracedAlways(n, es);
    var s := Run(Init(n), es);
    if j in s.rows { assert RowTraced(n, es, j, s.rows[j]); }
  }

  /* ---------- headers and delays ---------- */

  /** The delay a copy was published with, by the count it carries. */
  predicate DelayFits(m: Message) {
    m.place.InRetry? ==>
      || (m.header == Count(1) && m.place.ttlMs == 10_000)
      || (m.header == Count(2) && m.place.ttlMs == 30_000)
      || (m.header == Count(3) && m.place.ttlMs == 90_000)
  }

  lemma SuccessorDelay(h: Handler)
    requires h.Busy? && LadderHeader(h.header)
    ensures DelayFits(Successor(h))
  {
    DelaysByCount(RetryCount(h.header));
    LadderDescends(h.header);
  }

  lemma NewCopyDelay(s: State, w: nat, o: Outcome, err: string)
    requires Wf(s) && Enabled(s, Work(w, o, err)) && |WorkStep(s, w, o, err).msgs| > |s.msgs|
    ensures |WorkStep(s, w, o, err).msgs| == |s.msgs| + 1 && DelayFits(WorkStep(s, w, o, err).msgs[|s.msgs|])
  {
    var h := s.workers[w];
    assert h.phase.Publishing? && s.msgs[h.id].body.JobBody? && LadderHeader(h.header);
    SuccessorDelay(h);
  }

  ghost predicate DelaysFit(s: State) {
    forall m :: 0 <= m < |s.msgs| ==> DelayFits(s.msgs[m])
  }

  lemma OldMessageDelay(s: State, e: Event, m: nat)
    requires Enabled(s, e) && m < |s.msgs| && DelayFits(s.msgs[m])
    ensures m < |Apply(s, e).msgs| && DelayFits(Apply(s, e).msgs[m])
  {
  }

  lemma NewMessageDelay(s: State, e: Event, m: nat)
    requires Wf(s) && Enabled(s, e) && |s.msgs| <= m < |Apply(s, e).msgs|
    ensures DelayFits(Apply(s, e).msgs[m])
  {
    if e.Work? { NewCopyDelay(s, e.w, e.outcome, e.error); }
  }

  /** On every run a copy waits 10, 30 or 90 s in the retry queue as its count says. */
  lemma {:induction false} DelaysAlways(n: nat, es: seq<Event>)
    ensures DelaysFit(Run(Init(n), es))
  {
    if es != [] {
      var s, e := Run(Init(n), es[..|es| - 1]), es[|es| - 1];
      DelaysAlways(n, es[..|es| - 1]);
      WfAlways(n, es[..|es| - 1]);
      if Enabled(s, e) {
        forall m | 0 <= m < |Apply(s, e).msgs| ensures DelayFits(Apply(s, e).msgs[m]) {
          if m < |s.msgs| { OldMessageDelay(s, e, m); } else { NewMessageDelay(s, e, m); }
        }
      }
    }
  }

  /** Nothing rewrites a message that is in the broker. */
  lemma MessagesKeepHeader(s: State, e: Event, m: nat)
    requires Enabled(s, e) && m < |s.msgs|
    ensures m < |Apply(s, e).msgs| && Apply(s, e).msgs[m].header == s.msgs[m].header
    ensures Apply(s, e).msgs[m].body == s.msgs[m].body
  {
  }

  /**
    * A copy a worker publishes has the body of the message it handles; a retry copy has the
    * next count, a dead copy the unchanged header.
    */
  lemma CopiesKeepHeader(n: nat, es: seq<Event>, w: nat, o: Outcome, err: string)
    ensures var s := Run(Init(n), es);
            var t := Next(s, Work(w, o, err));
            |t.msgs| > |s.msgs| ==>
              && |t.msgs| == |s.msgs| + 1 && IsBusy(s, w)
              && var original, copy := s.msgs[s.workers[w].id], t.msgs[|s.msgs|];
                 && copy.body == original.body
                 && (copy.place.InRetry? || copy.place.InDead?)
                 && (copy.place.InDead? ==> copy.header == original.header)
                 && (copy.place.InRetry? ==> copy.header == Count(RetryCount(original.header) + 1))
  {
    var s := Run(Init(n), es);
    WfAlways(n, es);
    if Enabled(s, Work(w, o, err)) && |Next(s, Work(w, o, err)).msgs| > |s.msgs| {
      assert Next(s, Work(w, o, err)).msgs[|s.msgs|] == Successor(s.workers[w]);
    }
  }
}

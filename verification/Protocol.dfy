/**
  * The delivery protocol as one transition system: the API's `create`, the
  * Postgres rows, the RabbitMQ queues, the files and any number of workers.
  *
  * Every `await` of the source is one event.  An event carries the outcome of
  * the awaited call, so faults are part of the schedule.
  */
module Protocol {
  import opened Domain
  import opened Retry

  /** A call may raise although it took effect, or after doing nothing. */
  datatype Outcome = Outcome(applied: bool, raised: bool)

  const FINE := Outcome(true, false)

  /* ---------- broker ---------- */

  /** A message waits in the retry queue with the expiration it was published with. */
  datatype Place = InJobs | InRetry(ttlMs: nat) | InDead | Unacked(tag: nat) | Gone

  datatype Body = Malformed | JobBody(job: JobId, path: Path)

  /** `requeues` is a history variable: how often the broker took this message back. */
  datatype Message = Message(body: Body, header: Header, place: Place, requeues: nat)

  predicate For(b: Body, j: JobId) {
    b.JobBody? && b.job == j
  }

  predicate Live(m: Message) {
    m.place.InJobs? || m.place.InRetry? || m.place.Unacked?
  }

  /* ---------- worker ---------- */

  /** Where `handle_message`/`handle_failure` stand: the call they await next. */
  datatype Phase =
    | Received                           // get_status
    | RejectPoison                       // nack(requeue=False)
    | SkipAck                            // ack of an already completed job
    | Begin                              // mark_processing
    | Running                            // run_pipeline
    | Completing(transcript: Transcript) // complete
    | DoneAck                            // ack after the commit
    | Publishing(error: string)          // publish of the retry or the dead copy
    | Recording(error: string)           // record_retry
    | Burying(error: string)             // fail
    | HandledAck                         // ack at the end of handle_failure
    | Nacking                            // nack(requeue=True) after the pause

  /** A worker process runs one handler at a time; the handler keeps its copy of body and headers. */
  datatype Handler = Idle | Busy(id: nat, tag: nat, body: Body, header: Header, phase: Phase)

  datatype ProgressWrite = ProgressWrite(job: JobId, value: real)

  /* ---------- API ---------- */

  /** Where `create` stands. */
  datatype UploadPhase =
    | Arrived                  // validateUpload, then sha256 (or remove when rejected)
    | Hashed                   // findOne
    | Hit(of: JobId)           // remove of the temp file
    | Missed                   // promote
    | Promoted                 // save
    | Saved                    // publishJob
    | Undoing                  // delete of the row
    | Unsaved                  // remove of the file
    | Accepted                 // 202
    | Deduplicated(of: JobId)  // 200
    | Aborted                  // rejected, raised or crashed

  datatype Upload = Upload(hash: string, ext: string, valid: bool, phase: UploadPhase)

  datatype State = State(
    rows: map<JobId, Row>,
    files: set<Path>,
    msgs: seq<Message>,
    tags: nat,
    workers: seq<Handler>,
    pending: multiset<ProgressWrite>,
    uploads: seq<Upload>
  )

  function Init(n: nat): State {
    State(map[], {}, [], 0, seq(n, i => Idle), multiset{}, [])
  }

  predicate IsAccepted(s: State, j: JobId) {
    j < |s.uploads| && s.uploads[j].phase == Accepted
  }

  function FinalPath(s: State, j: JobId): Path
    requires j < |s.uploads|
  {
    Final(j, s.uploads[j].ext)
  }

  /* ---------- events ---------- */

  datatype Event =
    | Arrive(hash: string, ext: string, valid: bool)
    | Serve(u: JobId, outcome: Outcome, found: Option<JobId>)
    | ServerCrash(u: JobId)
    | Purge(u: JobId)
    | Inject(header: Header)
    | Deliver(w: nat, m: nat)
    | Work(w: nat, outcome: Outcome, error: string)
    | Pipeline(w: nat, result: Option<Transcript>, error: string)
    | Report(w: nat, value: real)
    | Flush(write: ProgressWrite, outcome: Outcome)
    | Crash(w: nat)
    | Requeue(m: nat)
    | Expire(m: nat)

  /** Calls whose normal return means that they took effect: database writes and confirmed publishes. */
  predicate Confirmed(o: Outcome) {
    o.raised || o.applied
  }

  predicate MatchesHash(s: State, j: JobId, hash: string) {
    j in s.rows && s.rows[j].status == Completed && s.rows[j].contentHash == hash
  }

  predicate IsBusy(s: State, w: nat) {
    w < |s.workers| && s.workers[w].Busy? && s.workers[w].id < |s.msgs|
  }

  predicate ServeEnabled(s: State, u: JobId, o: Outcome, found: Option<JobId>)
    requires u < |s.uploads|
  {
    var up := s.uploads[u];
    match up.phase
    case Arrived => up.valid && !o.raised ==> Temp(u) in s.files
    case Hashed =>
      !o.raised ==>
        if found.Some? then MatchesHash(s, found.value, up.hash)
        else forall k :: k in s.rows ==> !MatchesHash(s, k, up.hash)
    case Hit(_) => true
    case Missed => Confirmed(o) && (o.applied ==> Temp(u) in s.files)
    case Promoted => Confirmed(o)
    case Saved => Confirmed(o)
    case Undoing => Confirmed(o)
    case Unsaved => true
    case Accepted => false
    case Deduplicated(_) => false
    case Aborted => false
  }

  predicate WorkEnabled(h: Handler, o: Outcome)
    requires h.Busy?
  {
    && !h.phase.Running?
    && (!h.phase.RejectPoison? ==> h.body.JobBody?)
    && (h.phase.Begin? || h.phase.Completing? || h.phase.Publishing? || h.phase.Recording? || h.phase.Burying?
        ==> Confirmed(o))
  }

  predicate Enabled(s: State, e: Event) {
    match e
    case Arrive(_, _, _) => true
    case Serve(u, o, found) => u < |s.uploads| && ServeEnabled(s, u, o, found)
    case ServerCrash(u) => u < |s.uploads| && !s.uploads[u].phase.Accepted? && !s.uploads[u].phase.Deduplicated?
    case Purge(u) => true
    case Inject(_) => true
    case Deliver(w, m) => w < |s.workers| && s.workers[w].Idle? && m < |s.msgs| && s.msgs[m].place == InJobs
    case Work(w, o, _) => IsBusy(s, w) && WorkEnabled(s.workers[w], o)
    case Pipeline(w, _, _) => IsBusy(s, w) && s.workers[w].phase == Running
    case Report(w, v) => IsBusy(s, w) && s.workers[w].phase == Running && s.workers[w].body.JobBody? && 0.0 <= v <= 1.0
    case Flush(p, _) => p in s.pending
    case Crash(w) => w < |s.workers|
    case Requeue(m) => m < |s.msgs| && s.msgs[m].place.Unacked?
    case Expire(m) => m < |s.msgs| && s.msgs[m].place.InRetry?
  }

  /* ---------- effects ---------- */

  /** The calls `create` awaits, and the phase after each. */
  datatype ServerCall = ReadOnly | Unlink(path: Path) | Rename | Insert | PublishJob | DeleteRow

  function ServerAwaits(s: State, u: JobId): ServerCall
    requires u < |s.uploads|
  {
    match s.uploads[u].phase
    case Arrived => if s.uploads[u].valid then ReadOnly else Unlink(Temp(u))
    case Hit(_) => Unlink(Temp(u))
    case Missed => Rename
    case Promoted => Insert
    case Saved => PublishJob
    case Undoing => DeleteRow
    case Unsaved => Unlink(FinalPath(s, u))
    case _ => ReadOnly
  }

  function ServerPerformed(s: State, u: JobId, c: ServerCall): State
    requires u < |s.uploads|
  {
    match c
    case ReadOnly => s
    case Unlink(p) => s.(files := s.files - {p})
    case Rename => s.(files := s.files - {Temp(u)} + {FinalPath(s, u)})
    case Insert => s.(rows := s.rows[u := NewRow(s.uploads[u].hash, FinalPath(s, u))])
    case PublishJob => s.(msgs := s.msgs + [Message(JobBody(u, FinalPath(s, u)), Absent, InJobs, 0)])
    case DeleteRow => s.(rows := s.rows - {u})
  }

  /** `remove` swallows its error; a raise from any other call but publish escapes `create`. */
  function ServerResumes(up: Upload, o: Outcome, found: Option<JobId>): UploadPhase {
    match up.phase
    case Arrived => if !up.valid || o.raised then Aborted else Hashed
    case Hashed => if o.raised then Aborted else if found.Some? then Hit(found.value) else Missed
    case Hit(k) => Deduplicated(k)
    case Missed => if o.raised then Aborted else Promoted
    case Promoted => if o.raised then Aborted else Saved
    case Saved => if o.raised then Undoing else Accepted
    case Undoing => if o.raised then Aborted else Unsaved
    case Unsaved => Aborted
    case p => p
  }

  function SetUpload(s: State, u: JobId, p: UploadPhase): State
    requires u < |s.uploads|
  {
    s.(uploads := s.uploads[u := s.uploads[u].(phase := p)])
  }

  function ServeStep(s: State, u: JobId, o: Outcome, found: Option<JobId>): State
    requires u < |s.uploads|
  {
    SetUpload(if o.applied then ServerPerformed(s, u, ServerAwaits(s, u)) else s,
              u, ServerResumes(s.uploads[u], o, found))
  }

  /** The calls the handlers await. */
  datatype Call = Nothing | Ack | Reject | NackBack | Exec(job: JobId, update: Update) | Publish(msg: Message)

  function Awaits(h: Handler): Call
    requires h.Busy? && (!h.phase.RejectPoison? ==> h.body.JobBody?)
  {
    match h.phase
    case Received => Nothing // get_status only reads
    case RejectPoison => Reject
    case SkipAck => Ack
    case Begin => Exec(h.body.job, MarkProcessing)
    case Running => Nothing
    case Completing(t) => Exec(h.body.job, Complete(t))
    case DoneAck => Ack
    case Publishing(_) => if Decide(RetryCount(h.header)).IndexError? then Nothing else Publish(Successor(h))
    case Recording(e) => Exec(h.body.job, RecordRetry(e))
    case Burying(e) => Exec(h.body.job, Fail(e))
    case HandledAck => Ack
    case Nacking => NackBack
  }

  /** The copy `handle_failure` publishes for a decision, and where it lands. */
  function Successor(h: Handler): Message
    requires h.Busy?
  {
    var n := RetryCount(h.header);
    match Decide(n)
    case Again(ttl) => Message(h.body, Count(n + 1), InRetry(ttl), 0)
    case _ => Message(h.body, h.header, InDead, 0)
  }

  function Requeued(m: Message): Message {
    m.(place := InJobs, requeues := m.requeues + 1)
  }

  function Held(s: State, h: Handler): bool
    requires h.Busy?
  {
    h.id < |s.msgs| && s.msgs[h.id].place == Unacked(h.tag)
  }

  /** A stale delivery tag acknowledges nothing. */
  function Settle(s: State, h: Handler, m: Message): State
    requires h.Busy?
  {
    if Held(s, h) then s.(msgs := s.msgs[h.id := m]) else s
  }

  function Performed(s: State, h: Handler, c: Call): State
    requires h.Busy? && h.id < |s.msgs|
  {
    match c
    case Nothing => s
    case Ack => Settle(s, h, s.msgs[h.id].(place := Gone))
    case Reject => Settle(s, h, s.msgs[h.id].(place := InDead))
    case NackBack => Settle(s, h, Requeued(s.msgs[h.id]))
    case Exec(j, u) => s.(rows := Write(s.rows, j, u))
    case Publish(m) => s.(msgs := s.msgs + [m])
  }

  function AfterRead(rows: map<JobId, Row>, h: Handler, o: Outcome): Phase
    requires h.Busy? && h.body.JobBody?
  {
    if o.raised then Nacking
    else if h.body.job !in rows then RejectPoison
    else if rows[h.body.job].status == Completed then SkipAck
    else Begin
  }

  /** Control flow after the awaited call; `err` is the text of the exception if it raised. */
  function Resumes(rows: map<JobId, Row>, h: Handler, o: Outcome, err: string): Handler
    requires h.Busy? && (!h.phase.RejectPoison? ==> h.body.JobBody?)
  {
    match h.phase
    case Received => h.(phase := AfterRead(rows, h, o))
    case RejectPoison => Idle // outside the try blocks: a raise ends the handler too
    case SkipAck => Idle
    case Begin => h.(phase := if o.raised then Publishing(err) else Running)
    case Running => h
    case Completing(_) => h.(phase := if o.raised then Publishing(err) else DoneAck)
    case DoneAck => if o.raised then h.(phase := Publishing(err)) else Idle
    case Publishing(e) =>
      if Decide(RetryCount(h.header)).IndexError? then Idle // raised before the try block
      else if o.raised then h.(phase := Nacking)
      else if Decide(RetryCount(h.header)).Again? then h.(phase := Recording(e))
      else h.(phase := Burying(e))
    case Recording(_) => h.(phase := if o.raised then Nacking else HandledAck)
    case Burying(_) => h.(phase := if o.raised then Nacking else HandledAck)
    case HandledAck => if o.raised then h.(phase := Nacking) else Idle
    case Nacking => Idle
  }

  function SetWorker(s: State, w: nat, h: Handler): State
    requires w < |s.workers|
  {
    s.(workers := s.workers[w := h])
  }

  function WorkStep(s: State, w: nat, o: Outcome, err: string): State
    requires IsBusy(s, w) && WorkEnabled(s.workers[w], o)
  {
    var h := s.workers[w];
    SetWorker(if o.applied then Performed(s, h, Awaits(h)) else s, w, Resumes(s.rows, h, o, err))
  }

  /** Poison is detected before the first await. */
  function Start(b: Body): Phase {
    if b.Malformed? then RejectPoison else Received
  }

  function DeliverStep(s: State, w: nat, m: nat): State
    requires w < |s.workers| && m < |s.msgs|
  {
    var msg := s.msgs[m];
    SetWorker(s.(msgs := s.msgs[m := msg.(place := Unacked(s.tags))], tags := s.tags + 1),
              w, Busy(m, s.tags, msg.body, msg.header, Start(msg.body)))
  }

  function Apply(s: State, e: Event): State
    requires Enabled(s, e)
  {
    match e
    case Arrive(hash, ext, valid) =>
      s.(uploads := s.uploads + [Upload(hash, ext, valid, Arrived)], files := s.files + {Temp(|s.uploads|)})
    case Serve(u, o, found) => ServeStep(s, u, o, found)
    case ServerCrash(u) => SetUpload(s, u, Aborted)
    case Purge(u) => s.(files := s.files - {Temp(u)})
    case Inject(hd) => s.(msgs := s.msgs + [Message(Malformed, hd, InJobs, 0)])
    case Deliver(w, m) => DeliverStep(s, w, m)
    case Work(w, o, err) => WorkStep(s, w, o, err)
    case Pipeline(w, r, err) =>
      SetWorker(s, w, s.workers[w].(phase := if r.Some? then Completing(r.value) else Publishing(err)))
    case Report(w, v) => s.(pending := s.pending + multiset{ProgressWrite(s.workers[w].body.job, v)})
    case Flush(p, o) =>
      s.(pending := s.pending - multiset{p},
         rows := if o.applied then Write(s.rows, p.job, UpdateProgress(p.value)) else s.rows)
    case Crash(w) => SetWorker(s, w, Idle)
    case Requeue(m) => s.(msgs := s.msgs[m := Requeued(s.msgs[m])])
    case Expire(m) => s.(msgs := s.msgs[m := s.msgs[m].(place := InJobs)])
  }

  /* ---------- runs ---------- */

  /** An event that is not possible in a state is skipped, so every event list is a schedule. */
  function Next(s: State, e: Event): State {
    if Enabled(s, e) then Apply(s, e) else s
  }

  function Run(s: State, es: seq<Event>): State {
    if es == [] then s else Next(Run(s, es[..|es| - 1]), es[|es| - 1])
  }

  lemma RunSnoc(s: State, es: seq<Event>, e: Event)
    ensures Run(s, es + [e]) == Next(Run(s, es), e)
  {
    assert (es + [e])[..|es|] == es;
  }

  lemma {:induction false} RunConcat(s: State, a: seq<Event>, b: seq<Event>)
    ensures Run(s, a + b) == Run(Run(s, a), b)
    decreases |b|
  {
    if b == [] {
      assert a + b == a;
    } else {
      var c, x := b[..|b| - 1], b[|b| - 1];
      assert b == c + [x] && a + b == (a + c) + [x];
      RunConcat(s, a, c);
      RunSnoc(s, a + c, x);
      RunSnoc(Run(s, a), c, x);
    }
  }

  lemma {:induction false} WorkersKeepNumber(n: nat, es: seq<Event>)
    ensures |Run(Init(n), es).workers| == n
  {
    if es != [] {
      WorkersKeepNumber(n, es[..|es| - 1]);
    }
  }
}

/**
  * Schedules without faults, for any number of workers: the ledger of each accepted job
  * balances at every moment, and when nothing can move any more the job has its result.
  */
module Conservation {
  import opened Domain
  import opened Retry
  import opened Protocol
  import opened Wellformed
  import opened RowConsistency
  import opened Sums
  import opened FaultFree

  /** Phases in which the handler itself is the job's token. */
  predicate Carries(p: Phase) {
    p.Received? || p.Begin? || p.Running? || p.Completing? || p.Publishing?
  }

  predicate Waits(m: Message) {
    m.place.InJobs? || m.place.InRetry?
  }

  function QueuedCoin(j: JobId): Message -> int {
    (m: Message) => if For(m.body, j) && Waits(m) then 1 else 0
  }

  function DeadCoin(j: JobId): Message -> int {
    (m: Message) => if For(m.body, j) && m.place.InDead? then 1 else 0
  }

  function HandlerCoin(j: JobId): Handler -> int {
    (h: Handler) => if h.Busy? && For(h.body, j) && Carries(h.phase) then 1 else 0
  }

  predicate HasTranscript(s: State, j: JobId) {
    j in s.rows && s.rows[j].transcript.Some?
  }

  function DoneCoin(s: State, j: JobId): int {
    if HasTranscript(s, j) then 1 else 0
  }

  /** Tokens of a job: waiting copies and carrying handlers. */
  function Tokens(s: State, j: JobId): int {
    Sum(s.msgs, QueuedCoin(j)) + Sum(s.workers, HandlerCoin(j))
  }

  function DeadCopies(s: State, j: JobId): int {
    Sum(s.msgs, DeadCoin(j))
  }

  function Ledger(s: State, j: JobId): int {
    Tokens(s, j) + DeadCopies(s, j) + DoneCoin(s, j)
  }

  /** While a handler carries the token, its header counts the attempts. */
  predicate AttemptsFit(h: Handler, r: Row)
    requires h.Busy?
  {
    var k := RetryCount(h.header);
    match h.phase
    case Received => r.attempts == k
    case Begin => r.attempts == k
    case Running => r.attempts == k + 1
    case Completing(_) => r.attempts == k + 1
    case Publishing(_) => r.attempts == k + 1
    case SkipAck => false
    case RejectPoison => false
    case Nacking => false
    case _ => true
  }

  /** A waiting copy's retry count is the number of attempts made; a dead copy means four were made. */
  ghost predicate CopiesFit(s: State, j: JobId)
    requires j in s.rows
  {
    forall m :: 0 <= m < |s.msgs| && For(s.msgs[m].body, j) ==>
      && (Waits(s.msgs[m]) ==> s.rows[j].attempts == RetryCount(s.msgs[m].header))
      && (s.msgs[m].place.InDead? ==> s.rows[j].attempts == 4)
  }

  ghost predicate HandlersFit(s: State, j: JobId)
    requires j in s.rows
  {
    forall w :: 0 <= w < |s.workers| && s.workers[w].Busy? && For(s.workers[w].body, j) ==>
      AttemptsFit(s.workers[w], s.rows[j])
  }

  ghost predicate Balanced(s: State, j: JobId) {
    && j in s.rows
    && Ledger(s, j) == 1
    && CopiesFit(s, j)
    && HandlersFit(s, j)
    && (s.rows[j].transcript.Some? ==> 1 <= s.rows[j].attempts <= 4)
  }

  /** Every handler holds a message of its own. */
  ghost predicate Holding(s: State) {
    && (forall w :: 0 <= w < |s.workers| && s.workers[w].Busy? ==>
          && s.workers[w].id < |s.msgs| && Held(s, s.workers[w])
          && (s.workers[w].phase.RejectPoison? || s.workers[w].body.JobBody?))
    && (forall v, w :: 0 <= v < w < |s.workers| && s.workers[v].Busy? && s.workers[w].Busy? ==>
          s.workers[v].id != s.workers[w].id)
  }

  /** Job messages are about accepted uploads, and nothing is rolled back. */
  ghost predicate AcceptedOnly(s: State) {
    && (forall m :: 0 <= m < |s.msgs| && s.msgs[m].body.JobBody? ==> IsAccepted(s, s.msgs[m].body.job))
    && (forall u :: 0 <= u < |s.uploads| ==> !s.uploads[u].phase.Undoing? && !s.uploads[u].phase.Unsaved?)
  }

  ghost predicate Calm(s: State) {
    Wf(s) && Consistent(s) && Holding(s) && AcceptedOnly(s)
  }

  ghost predicate AllBalanced(s: State) {
    forall j :: IsAccepted(s, j) ==> Balanced(s, j)
  }

  /* ---------- how the ledger moves ---------- */

  function MessageCoins(m: Message, j: JobId): int {
    QueuedCoin(j)(m) + DeadCoin(j)(m)
  }

  lemma LedgerMessage(s: State, i: nat, m: Message, j: JobId)
    requires i < |s.msgs|
    ensures Ledger(s.(msgs := s.msgs[i := m]), j) == Ledger(s, j) - MessageCoins(s.msgs[i], j) + MessageCoins(m, j)
  {
    SumUpdate(s.msgs, i, m, QueuedCoin(j));
    SumUpdate(s.msgs, i, m, DeadCoin(j));
  }

  lemma LedgerAppend(s: State, m: Message, j: JobId)
    ensures Ledger(s.(msgs := s.msgs + [m]), j) == Ledger(s, j) + MessageCoins(m, j)
  {
    SumAppend(s.msgs, m, QueuedCoin(j));
    SumAppend(s.msgs, m, DeadCoin(j));
  }

  lemma LedgerHandler(s: State, w: nat, h: Handler, j: JobId)
    requires w < |s.workers|
    ensures Ledger(SetWorker(s, w, h), j) == Ledger(s, j) - HandlerCoin(j)(s.workers[w]) + HandlerCoin(j)(h)
  {
    SumUpdate(s.workers, w, h, HandlerCoin(j));
  }

  lemma CoinsNonNegative(s: State, j: JobId)
    ensures Sum(s.msgs, QueuedCoin(j)) >= 0 && DeadCopies(s, j) >= 0 && Sum(s.workers, HandlerCoin(j)) >= 0
  {
    SumNonNegative(s.msgs, QueuedCoin(j));
    SumNonNegative(s.msgs, DeadCoin(j));
    SumNonNegative(s.workers, HandlerCoin(j));
  }

  /** While a handler carries the token there is no waiting copy, no dead copy and no result. */
  lemma CarrierAlone(s: State, j: JobId, w: nat, m: nat)
    requires Ledger(s, j) == 1 && w < |s.workers| && HandlerCoin(j)(s.workers[w]) == 1
    ensures m < |s.msgs| ==> MessageCoins(s.msgs[m], j) == 0
    ensures !HasTranscript(s, j)
  {
    CoinsNonNegative(s, j);
    SumMember(s.workers, w, HandlerCoin(j));
    if m < |s.msgs| {
      SumMember(s.msgs, m, QueuedCoin(j));
      SumMember(s.msgs, m, DeadCoin(j));
    }
  }

  /** And no other handler carries it. */
  lemma OneCarrier(s: State, j: JobId, v: nat, w: nat)
    requires Ledger(s, j) == 1 && v < |s.workers| && w < |s.workers| && v != w
    requires HandlerCoin(j)(s.workers[w]) == 1
    ensures HandlerCoin(j)(s.workers[v]) == 0
  {
    CoinsNonNegative(s, j);
    SumPair(s.workers, if v < w then v else w, if v < w then w else v, HandlerCoin(j));
  }

  /* ---------- the step of a handler ---------- */

  ghost predicate WorkReady(s: State, w: nat, err: string) {
    Calm(s) && Enabled(s, Work(w, FINE, err))
  }

  lemma LedgerPerformed(s: State, h: Handler, c: Call, j: JobId)
    requires h.Busy? && Held(s, h) && h.body == s.msgs[h.id].body
    ensures var t := Performed(s, h, c);
            Ledger(t, j) - DoneCoin(t, j) == Ledger(s, j) - DoneCoin(s, j)
              + (if c.Publish? then MessageCoins(c.msg, j) else 0)
              + (if (c.NackBack? || c.Reject?) && For(h.body, j) then 1 else 0)
  {
    var t := Performed(s, h, c);
    if c.Publish? { LedgerAppend(s, c.msg, j); }
    if c.Ack? || c.Reject? || c.NackBack? {
      assert t == s.(msgs := s.msgs[h.id := t.msgs[h.id]]);
      LedgerMessage(s, h.id, t.msgs[h.id], j);
    }
  }

  /** The exact change of a job's ledger at an await of any handler. */
  lemma LedgerWork(s: State, w: nat, err: string, j: JobId)
    requires WorkReady(s, w, err)
    ensures var h, t := s.workers[w], WorkStep(s, w, FINE, err);
            Ledger(t, j) == Ledger(s, j)
              - HandlerCoin(j)(h) + HandlerCoin(j)(t.workers[w])
              - DoneCoin(s, j) + DoneCoin(t, j)
              + (if Awaits(h).Publish? then MessageCoins(Awaits(h).msg, j) else 0)
              + (if (Awaits(h).NackBack? || Awaits(h).Reject?) && For(h.body, j) then 1 else 0)
  {
    var h := s.workers[w];
    LedgerPerformed(s, h, Awaits(h), j);
    LedgerHandler(Performed(s, h, Awaits(h)), w, Resumes(s.rows, h, FINE, err), j);
  }

  /** A step touches the handler, its own message, and at most one new copy for the same job. */
  lemma WorkFrame(s: State, w: nat, err: string)
    requires WorkReady(s, w, err)
    ensures var h, t := s.workers[w], WorkStep(s, w, FINE, err);
            && t.uploads == s.uploads && t.workers == s.workers[w := Resumes(s.rows, h, FINE, err)]
            && |t.msgs| >= |s.msgs|
            && (forall m :: 0 <= m < |s.msgs| ==>
                  t.msgs[m].body == s.msgs[m].body && (m != h.id ==> t.msgs[m] == s.msgs[m]))
            && (forall m :: |s.msgs| <= m < |t.msgs| ==> t.msgs[m].body == h.body)
            && (t.workers[w].Busy? ==> t.msgs[h.id] == s.msgs[h.id])
  {
  }

  /** A job the handler is not working on sees nothing of its step. */
  lemma OtherJobRow(s: State, w: nat, err: string, j: JobId)
    requires WorkReady(s, w, err) && j in s.rows && !For(s.workers[w].body, j)
    ensures var t := WorkStep(s, w, FINE, err); j in t.rows && t.rows[j] == s.rows[j]
  {
  }

  lemma OtherJobWork(s: State, w: nat, err: string, j: JobId)
    requires WorkReady(s, w, err) && Balanced(s, j) && !For(s.workers[w].body, j)
    ensures Balanced(WorkStep(s, w, FINE, err), j)
  {
    var h, t := s.workers[w], WorkStep(s, w, FINE, err);
    OtherJobRow(s, w, err, j);
    WorkFrame(s, w, err);
    ResumesSameDelivery(s.rows, h, FINE, err);
    LedgerWork(s, w, err, j);
    assert Awaits(h).Publish? ==> Awaits(h).msg.body == h.body;
  }

  /** A token in a handler's hands has no result yet, so the handler never skips or rejects it. */
  lemma NotSkipped(s: State, w: nat, j: JobId)
    requires Calm(s) && Balanced(s, j) && w < |s.workers| && s.workers[w].Busy? && For(s.workers[w].body, j)
    requires s.workers[w].phase.Received?
    ensures !s.rows[j].status.Completed?
  {
    CarrierAlone(s, j, w, 0);
    assert RowConsistent(s.rows[j]);
  }

  lemma OwnJobStays(s: State, w: nat, err: string, j: JobId)
    requires WorkReady(s, w, err) && Balanced(s, j) && For(s.workers[w].body, j)
    ensures var h, t := s.workers[w], WorkStep(s, w, FINE, err);
            && j in t.rows && t.workers == s.workers[w := Resumes(s.rows, h, FINE, err)]
            && !Awaits(h).NackBack? && !Awaits(h).Reject?
            && t.rows[j] == (if Awaits(h).Exec? then Updated(s.rows[j], Awaits(h).update) else s.rows[j])
  {
  }

  /** The phase after a call fits the row after it. */
  lemma PhaseFollowsRow(rows: map<JobId, Row>, h: Handler, err: string)
    requires h.Busy? && WorkEnabled(h, FINE) && h.body.JobBody? && h.body.job in rows && LadderHeader(h.header)
    requires AttemptsFit(h, rows[h.body.job])
    requires h.phase.Received? ==> !rows[h.body.job].status.Completed?
    requires rows[h.body.job].transcript.Some? ==> 1 <= rows[h.body.job].attempts <= 4
    requires h.phase.Begin? ==> rows[h.body.job].transcript.None?
    ensures var r, c := rows[h.body.job], Awaits(h);
            var r', h' := if c.Exec? then Updated(r, c.update) else r, Resumes(rows, h, FINE, err);
            && (h'.Busy? ==> h'.body == h.body && h'.header == h.header && AttemptsFit(h', r'))
            && (r'.transcript.Some? ==> 1 <= r'.attempts <= 4)
            && (r'.attempts != r.attempts ==> h.phase.Begin?)
  {
    LadderDescends(h.header);
  }

  /** The rows and handlers of the handled job stay in step. */
  lemma OwnJobRow(s: State, w: nat, err: string, j: JobId)
    requires WorkReady(s, w, err) && Balanced(s, j) && For(s.workers[w].body, j)
    ensures var h, t := s.workers[w], WorkStep(s, w, FINE, err);
            && j in t.rows && (t.workers[w].Busy? ==> AttemptsFit(t.workers[w], t.rows[j]))
            && (t.rows[j].transcript.Some? ==> 1 <= t.rows[j].attempts <= 4)
            && (t.rows[j].attempts != s.rows[j].attempts ==> h.phase.Begin?)
  {
    var h := s.workers[w];
    OwnJobStays(s, w, err, j);
    if h.phase.Received? { NotSkipped(s, w, j); }
    if h.phase.Begin? { CarrierAlone(s, j, w, 0); }
    PhaseFollowsRow(s.rows, h, err);
  }

  lemma OwnJobHandlers(s: State, w: nat, err: string, j: JobId)
    requires WorkReady(s, w, err) && Balanced(s, j) && For(s.workers[w].body, j)
    requires j in WorkStep(s, w, FINE, err).rows
    ensures HandlersFit(WorkStep(s, w, FINE, err), j)
  {
    var h, t := s.workers[w], WorkStep(s, w, FINE, err);
    OwnJobStays(s, w, err, j);
    OwnJobRow(s, w, err, j);
    forall v | 0 <= v < |t.workers| && v != w && t.workers[v].Busy? && For(t.workers[v].body, j)
      ensures AttemptsFit(t.workers[v], t.rows[j])
    {
      assert t.workers[v] == s.workers[v] && AttemptsFit(s.workers[v], s.rows[j]);
      if h.phase.Begin? { OneCarrier(s, j, v, w); }
    }
  }

  /** How a step moves a handler's own coin. */
  lemma OwnCoins(rows: map<JobId, Row>, h: Handler, err: string, j: JobId)
    requires h.Busy? && WorkEnabled(h, FINE) && For(h.body, j) && j in rows && LadderHeader(h.header)
    requires AttemptsFit(h, rows[j]) && (h.phase.Received? ==> !rows[j].status.Completed?)
    ensures var c, r := Awaits(h), Resumes(rows, h, FINE, err);
            HandlerCoin(j)(h) == HandlerCoin(j)(r) + (if c.Publish? then MessageCoins(c.msg, j) else 0)
              + (if c.Exec? && c.update.Complete? then 1 else 0)
  {
    LadderDescends(h.header);
  }

  /** The result coin is paid in by `complete` alone. */
  lemma OwnResult(s: State, w: nat, err: string, j: JobId)
    requires WorkReady(s, w, err) && Balanced(s, j) && For(s.workers[w].body, j)
    ensures var c := Awaits(s.workers[w]);
            DoneCoin(WorkStep(s, w, FINE, err), j) == DoneCoin(s, j) + (if c.Exec? && c.update.Complete? then 1 else 0)
  {
    OwnJobStays(s, w, err, j);
    if Carries(s.workers[w].phase) { CarrierAlone(s, j, w, 0); }
  }

  lemma OwnJobLedger(s: State, w: nat, err: string, j: JobId)
    requires WorkReady(s, w, err) && Balanced(s, j) && For(s.workers[w].body, j)
    ensures Ledger(WorkStep(s, w, FINE, err), j) == 1
  {
    var h := s.workers[w];
    OwnJobStays(s, w, err, j);
    LedgerWork(s, w, err, j);
    if h.phase.Received? { NotSkipped(s, w, j); }
    OwnCoins(s.rows, h, err, j);
    OwnResult(s, w, err, j);
  }

  /** A waiting or dead copy of the handled job was there before, and the handler did not carry the token. */
  lemma OldCopy(s: State, w: nat, err: string, j: JobId, m: nat)
    requires WorkReady(s, w, err) && Balanced(s, j) && For(s.workers[w].body, j) && m < |s.msgs|
    requires MessageCoins(WorkStep(s, w, FINE, err).msgs[m], j) == 1
    ensures MessageCoins(s.msgs[m], j) == 1 && WorkStep(s, w, FINE, err).msgs[m] == s.msgs[m]
    ensures !Carries(s.workers[w].phase)
  {
    OwnJobStays(s, w, err, j);
    if Carries(s.workers[w].phase) { CarrierAlone(s, j, w, m); }
  }

  /** The successor a handler publishes fits the attempts made. */
  lemma NewCopyFits(s: State, w: nat, err: string, j: JobId)
    requires WorkReady(s, w, err) && Balanced(s, j) && For(s.workers[w].body, j)
    requires |WorkStep(s, w, FINE, err).msgs| > |s.msgs|
    ensures var t := WorkStep(s, w, FINE, err);
            && |t.msgs| == |s.msgs| + 1 && j in t.rows
            && var m := t.msgs[|s.msgs|];
               && (Waits(m) ==> t.rows[j].attempts == RetryCount(m.header))
               && (m.place.InDead? ==> t.rows[j].attempts == 4)
  {
    LadderDescends(s.workers[w].header);
  }

  lemma OwnJobCopies(s: State, w: nat, err: string, j: JobId)
    requires WorkReady(s, w, err) && Balanced(s, j) && For(s.workers[w].body, j)
    requires j in WorkStep(s, w, FINE, err).rows
    ensures CopiesFit(WorkStep(s, w, FINE, err), j)
  {
    var t := WorkStep(s, w, FINE, err);
    OwnJobRow(s, w, err, j);
    if |t.msgs| > |s.msgs| { NewCopyFits(s, w, err, j); }
    forall m | 0 <= m < |t.msgs| && For(t.msgs[m].body, j)
      ensures Waits(t.msgs[m]) ==> t.rows[j].attempts == RetryCount(t.msgs[m].header)
      ensures t.msgs[m].place.InDead? ==> t.rows[j].attempts == 4
    {
      if m < |s.msgs| && MessageCoins(t.msgs[m], j) == 1 { OldCopy(s, w, err, j, m); }
    }
  }

  lemma BalancedWork(s: State, w: nat, err: string, j: JobId)
    requires WorkReady(s, w, err) && Balanced(s, j)
    ensures Balanced(WorkStep(s, w, FINE, err), j)
  {
    if For(s.workers[w].body, j) {
      OwnJobRow(s, w, err, j);
      OwnJobLedger(s, w, err, j);
      OwnJobCopies(s, w, err, j);
      OwnJobHandlers(s, w, err, j);
    } else {
      OtherJobWork(s, w, err, j);
    }
  }

  /* ---------- the other events ---------- */

  lemma BalancedDeliver(s: State, w: nat, m: nat, j: JobId)
    requires Calm(s) && Enabled(s, Deliver(w, m)) && Balanced(s, j)
    ensures Balanced(DeliverStep(s, w, m), j)
  {
    var t := DeliverStep(s, w, m);
    var s1 := s.(msgs := s.msgs[m := t.msgs[m]]);
    LedgerMessage(s, m, t.msgs[m], j);
    LedgerHandler(s1, w, t.workers[w], j);
    assert Ledger(t, j) == Ledger(SetWorker(s1, w, t.workers[w]), j);
  }

  lemma LedgerArrivals(s: State, e: Event, j: JobId)
    requires Enabled(s, e) && Faultless(e) && IsAccepted(s, j) && (e.Serve? || e.Inject?)
    requires DoneCoin(Apply(s, e), j) == DoneCoin(s, j)
    ensures Ledger(Apply(s, e), j) == Ledger(s, j)
  {
    if e.Serve? {
      FineServe(s, e.u, e.outcome, e.found);
      if s.uploads[e.u].phase.Saved? {
        LedgerAppend(s, Message(JobBody(e.u, FinalPath(s, e.u)), Absent, InJobs, 0), j);
      }
    } else {
      LedgerAppend(s, Message(Malformed, e.header, InJobs, 0), j);
    }
  }

  lemma LedgerElsewhere(s: State, e: Event, j: JobId)
    requires Wf(s) && Enabled(s, e) && Faultless(e) && IsAccepted(s, j)
    requires !e.Work? && !e.Deliver? && DoneCoin(Apply(s, e), j) == DoneCoin(s, j)
    ensures Ledger(Apply(s, e), j) == Ledger(s, j)
  {
    var t := Apply(s, e);
    if e.Serve? || e.Inject? {
      LedgerArrivals(s, e, j);
    } else if e.Expire? {
      LedgerMessage(s, e.m, t.msgs[e.m], j);
    } else if e.Pipeline? {
      LedgerHandler(s, e.w, t.workers[e.w], j);
    }
  }

  lemma MessageElsewhere(s: State, e: Event, j: JobId, m: nat)
    requires Wf(s) && Enabled(s, e) && Faultless(e) && IsAccepted(s, j) && !e.Work? && !e.Deliver?
    requires m < |Apply(s, e).msgs| && For(Apply(s, e).msgs[m].body, j)
    ensures m < |s.msgs| && For(s.msgs[m].body, j) && s.msgs[m].header == Apply(s, e).msgs[m].header
    ensures Apply(s, e).msgs[m].place == s.msgs[m].place || (Waits(s.msgs[m]) && Waits(Apply(s, e).msgs[m]))
  {
  }

  lemma CopiesElsewhere(s: State, e: Event, j: JobId)
    requires Wf(s) && Enabled(s, e) && Faultless(e) && IsAccepted(s, j) && j in s.rows && CopiesFit(s, j)
    requires !e.Work? && !e.Deliver? && j in Apply(s, e).rows && Apply(s, e).rows[j].attempts == s.rows[j].attempts
    ensures CopiesFit(Apply(s, e), j)
  {
    var t := Apply(s, e);
    forall m | 0 <= m < |t.msgs| && For(t.msgs[m].body, j)
      ensures Waits(t.msgs[m]) ==> t.rows[j].attempts == RetryCount(t.msgs[m].header)
      ensures t.msgs[m].place.InDead? ==> t.rows[j].attempts == 4
    {
      MessageElsewhere(s, e, j, m);
    }
  }

  lemma HandlersElsewhere(s: State, e: Event, j: JobId)
    requires Enabled(s, e) && Faultless(e) && j in s.rows && HandlersFit(s, j)
    requires !e.Work? && !e.Deliver? && j in Apply(s, e).rows && Apply(s, e).rows[j].attempts == s.rows[j].attempts
    ensures HandlersFit(Apply(s, e), j)
  {
    var t := Apply(s, e);
    forall w | 0 <= w < |t.workers| && t.workers[w].Busy? && For(t.workers[w].body, j)
      ensures AttemptsFit(t.workers[w], t.rows[j])
    {
      WorkersElsewhere(s, e, w);
    }
  }

  /** Events that touch neither this job's messages nor its handlers' places in the ledger. */
  lemma BalancedElsewhere(s: State, e: Event, j: JobId)
    requires Wf(s) && Enabled(s, e) && Faultless(e) && Balanced(s, j) && IsAccepted(s, j)
    requires !e.Work? && !e.Deliver?
    ensures Balanced(Apply(s, e), j)
  {
    RowsElsewhere(s, e, j);
    LedgerElsewhere(s, e, j);
    CopiesElsewhere(s, e, j);
    HandlersElsewhere(s, e, j);
  }

  /** Before its publish a job has no token, no dead copy and no result. */
  lemma EmptyLedger(s: State, j: JobId)
    requires Wf(s) && AcceptedOnly(s) && !IsAccepted(s, j) && j in s.rows && s.rows[j].transcript.None?
    ensures Ledger(s, j) == 0
  {
    SumZero(s.msgs, QueuedCoin(j));
    SumZero(s.msgs, DeadCoin(j));
    SumZero(s.workers, HandlerCoin(j));
  }

  lemma OpeningStep(s: State, e: Event, j: JobId)
    requires Enabled(s, e) && Faultless(e) && !IsAccepted(s, j) && IsAccepted(Apply(s, e), j)
    ensures e.Serve? && e.u == j && s.uploads[j].phase.Saved?
    ensures var t := Apply(s, e);
            && t.msgs == s.msgs + [Message(JobBody(j, FinalPath(s, j)), Absent, InJobs, 0)]
            && t.rows == s.rows && t.workers == s.workers
  {
    AcceptanceStep(s, e, j);
  }

  /** The confirmed publish opens the ledger with its one token. */
  lemma BalancedOpening(s: State, e: Event, j: JobId)
    requires Calm(s) && Enabled(s, e) && Faultless(e)
    requires !IsAccepted(s, j) && IsAccepted(Apply(s, e), j)
    requires j in s.rows && s.rows[j].transcript.None? && s.rows[j].attempts == 0
    ensures Balanced(Apply(s, e), j)
  {
    OpeningStep(s, e, j);
    EmptyLedger(s, j);
    LedgerAppend(s, Message(JobBody(j, FinalPath(s, j)), Absent, InJobs, 0), j);
    assert forall m :: 0 <= m < |s.msgs| ==> !For(s.msgs[m].body, j);
    assert forall w :: 0 <= w < |s.workers| && s.workers[w].Busy? ==> !For(s.workers[w].body, j);
  }

  /* ---------- the invariant ---------- */

  lemma AcceptedOnlyWork(s: State, w: nat, err: string)
    requires WorkReady(s, w, err)
    ensures AcceptedOnly(WorkStep(s, w, FINE, err))
  {
    var h, t := s.workers[w], WorkStep(s, w, FINE, err);
    WorkFrame(s, w, err);
    forall m | 0 <= m < |t.msgs| && t.msgs[m].body.JobBody? ensures IsAccepted(t, t.msgs[m].body.job) {
      assert t.msgs[m].body == (if m < |s.msgs| then s.msgs[m].body else s.msgs[h.id].body);
    }
  }

  lemma HoldingWork(s: State, w: nat, err: string)
    requires WorkReady(s, w, err)
    ensures Holding(WorkStep(s, w, FINE, err))
  {
    var h, t := s.workers[w], WorkStep(s, w, FINE, err);
    WorkFrame(s, w, err);
    ResumesSameDelivery(s.rows, h, FINE, err);
    forall v | 0 <= v < |t.workers| && t.workers[v].Busy?
      ensures t.workers[v].id < |t.msgs| && Held(t, t.workers[v])
      ensures t.workers[v].phase.RejectPoison? || t.workers[v].body.JobBody?
    {
      assert v != w ==> s.workers[v].id != h.id;
    }
  }

  lemma AcceptedOnlyServe(s: State, u: JobId, o: Outcome, found: Option<JobId>)
    requires AcceptedOnly(s) && Enabled(s, Serve(u, o, found)) && Fine(o)
    ensures AcceptedOnly(ServeStep(s, u, o, found))
  {
    FineServe(s, u, o, found);
    var t := ServeStep(s, u, o, found);
    forall m | 0 <= m < |t.msgs| && t.msgs[m].body.JobBody? ensures IsAccepted(t, t.msgs[m].body.job) {
      if m < |s.msgs| { assert t.msgs[m] == s.msgs[m]; }
    }
  }

  lemma AcceptedOnlyElsewhere(s: State, e: Event)
    requires AcceptedOnly(s) && Enabled(s, e) && Faultless(e) && !e.Work?
    ensures AcceptedOnly(Apply(s, e))
  {
    if e.Serve? { AcceptedOnlyServe(s, e.u, e.outcome, e.found); }
  }

  lemma HoldingDeliver(s: State, w: nat, m: nat)
    requires Wf(s) && Holding(s) && Enabled(s, Deliver(w, m))
    ensures Holding(DeliverStep(s, w, m))
  {
  }

  lemma HoldingElsewhere(s: State, e: Event)
    requires Wf(s) && Holding(s) && Enabled(s, e) && Faultless(e) && !e.Work? && !e.Deliver?
    ensures Holding(Apply(s, e))
  {
    var t := Apply(s, e);
    forall w | 0 <= w < |t.workers| && t.workers[w].Busy?
      ensures s.workers[w].Busy? && t.workers[w] == s.workers[w].(phase := t.workers[w].phase) && Held(t, t.workers[w])
      ensures t.workers[w].phase.RejectPoison? || t.workers[w].body.JobBody?
    {
      WorkersElsewhere(s, e, w);
    }
  }

  lemma CalmStep(s: State, e: Event)
    requires Calm(s) && AllBalanced(s) && Enabled(s, e) && Faultless(e)
    ensures Calm(Apply(s, e))
  {
    WfNext(s, e);
    ConsistentStep(s, e);
    if e.Work? {
      HoldingWork(s, e.w, e.error);
      AcceptedOnlyWork(s, e.w, e.error);
    } else {
      AcceptedOnlyElsewhere(s, e);
      if e.Deliver? { HoldingDeliver(s, e.w, e.m); } else { HoldingElsewhere(s, e); }
    }
  }

  /** A row whose publish is not confirmed yet is as it was inserted. */
  ghost predicate RowsUntouched(s: State) {
    forall j :: j in s.rows && !IsAccepted(s, j) ==> s.rows[j].transcript.None? && s.rows[j].attempts == 0
  }

  lemma RowsUntouchedWork(s: State, w: nat, o: Outcome, err: string)
    requires Calm(s) && RowsUntouched(s) && Enabled(s, Work(w, o, err))
    ensures RowsUntouched(WorkStep(s, w, o, err))
  {
    var t := WorkStep(s, w, o, err);
    assert t.uploads == s.uploads;
    forall j | j in t.rows && !IsAccepted(t, j) ensures j in s.rows && t.rows[j] == s.rows[j] {
      assert !For(s.workers[w].body, j);
    }
  }

  lemma InsertedRow(s: State, e: Event, j: JobId)
    requires Wf(s) && Enabled(s, e) && !e.Work? && j in Apply(s, e).rows && j !in s.rows
    ensures Apply(s, e).rows[j].transcript.None? && Apply(s, e).rows[j].attempts == 0
  {
  }

  lemma RowsUntouchedStep(s: State, e: Event)
    requires Calm(s) && RowsUntouched(s) && Enabled(s, e)
    ensures RowsUntouched(Apply(s, e))
  {
    var t := Apply(s, e);
    if e.Work? {
      RowsUntouchedWork(s, e.w, e.outcome, e.error);
    } else {
      forall j | j in t.rows && !IsAccepted(t, j) ensures t.rows[j].transcript.None? && t.rows[j].attempts == 0 {
        if j in s.rows { RowsElsewhere(s, e, j); } else { InsertedRow(s, e, j); }
        if IsAccepted(s, j) { AcceptedStays(s, e, j); }
      }
    }
  }

  ghost predicate InOrder(s: State) {
    Calm(s) && AllBalanced(s) && RowsUntouched(s)
  }

  lemma BalancedStep(s: State, e: Event, j: JobId)
    requires InOrder(s) && Enabled(s, e) && Faultless(e) && IsAccepted(Apply(s, e), j)
    ensures Balanced(Apply(s, e), j)
  {
    if !IsAccepted(s, j) {
      OpeningStep(s, e, j);
      BalancedOpening(s, e, j);
    } else if e.Work? {
      BalancedWork(s, e.w, e.error, j);
    } else if e.Deliver? {
      BalancedDeliver(s, e.w, e.m, j);
    } else {
      BalancedElsewhere(s, e, j);
    }
  }

  lemma InOrderStep(s: State, e: Event)
    requires InOrder(s) && Enabled(s, e) && Faultless(e)
    ensures InOrder(Apply(s, e))
  {
    CalmStep(s, e);
    RowsUntouchedStep(s, e);
    forall j | IsAccepted(Apply(s, e), j) ensures Balanced(Apply(s, e), j) {
      BalancedStep(s, e, j);
    }
  }

  lemma {:induction false} InOrderAlways(n: nat, es: seq<Event>)
    requires FaultlessRun(es)
    ensures InOrder(Run(Init(n), es))
  {
    if es == [] {
      assert Calm(Init(n));
    } else {
      var s := Run(Init(n), es[..|es| - 1]);
      InOrderAlways(n, es[..|es| - 1]);
      if Enabled(s, es[|es| - 1]) { InOrderStep(s, es[|es| - 1]); }
    }
  }

  /* ---------- results ---------- */

  /**
    * Conservation, for any number of workers: waiting copies + carrying handlers + dead
    * copies + stored transcript is always exactly one.
    */
  lemma TokenConserved(n: nat, es: seq<Event>, j: JobId)
    requires FaultlessRun(es) && IsAccepted(Run(Init(n), es), j)
    ensures var s := Run(Init(n), es);
            && Tokens(s, j) + DeadCopies(s, j) + (if HasTranscript(s, j) then 1 else 0) == 1
            && Tokens(s, j) >= 0 && DeadCopies(s, j) >= 0
  {
    InOrderAlways(n, es);
    assert Balanced(Run(Init(n), es), j);
    CoinsNonNegative(Run(Init(n), es), j);
  }

  /** The header counts the attempts: as many as it says while waiting, one more once started. */
  lemma HeaderCountsAttempts(n: nat, es: seq<Event>, j: JobId, m: nat, w: nat)
    requires FaultlessRun(es) && IsAccepted(Run(Init(n), es), j)
    ensures var s := Run(Init(n), es);
            && j in s.rows
            && (m < |s.msgs| && For(s.msgs[m].body, j) && Waits(s.msgs[m]) ==>
                  s.rows[j].attempts == RetryCount(s.msgs[m].header))
            && (w < |s.workers| && s.workers[w].Busy? && For(s.workers[w].body, j) ==>
                  var h := s.workers[w];
                  && (h.phase.Received? || h.phase.Begin? ==> s.rows[j].attempts == RetryCount(h.header))
                  && (h.phase.Running? || h.phase.Completing? || h.phase.Publishing? ==>
                        s.rows[j].attempts == RetryCount(h.header) + 1))
  {
    InOrderAlways(n, es);
    assert Balanced(Run(Init(n), es), j);
  }

  ghost predicate CanMove(s: State) {
    exists e :: IsMove(e) && Faultless(e) && Enabled(s, e)
  }

  lemma BusyCanMove(s: State, w: nat)
    requires Calm(s) && w < |s.workers| && s.workers[w].Busy?
    ensures CanMove(s)
  {
    if s.workers[w].phase.Running? {
      assert Enabled(s, Pipeline(w, None, ""));
    } else {
      assert Enabled(s, Work(w, FINE, ""));
    }
  }

  lemma WaitingCanMove(s: State, m: nat)
    requires |s.workers| >= 1 && s.workers[0].Idle? && m < |s.msgs| && Waits(s.msgs[m])
    ensures CanMove(s)
  {
    if s.msgs[m].place.InJobs? {
      assert Enabled(s, Deliver(0, m));
    } else {
      assert Enabled(s, Expire(m));
    }
  }

  /** A stored transcript after 1 to 4 attempts and no dead copy, or one dead copy after exactly 4 and no transcript. */
  ghost predicate HasOutcome(s: State, j: JobId) {
    && j in s.rows && Tokens(s, j) == 0
    && ((HasTranscript(s, j) && 1 <= s.rows[j].attempts <= 4 && DeadCopies(s, j) == 0)
        || (!HasTranscript(s, j) && s.rows[j].attempts == 4 && DeadCopies(s, j) == 1))
  }

  lemma DeadAfterFour(s: State, j: JobId)
    requires Balanced(s, j) && DeadCopies(s, j) == 1
    ensures s.rows[j].attempts == 4
  {
    if forall m :: 0 <= m < |s.msgs| ==> DeadCoin(j)(s.msgs[m]) == 0 {
      SumZero(s.msgs, DeadCoin(j));
    }
  }

  lemma QuietHasOutcome(s: State, j: JobId)
    requires Balanced(s, j)
    requires forall w :: 0 <= w < |s.workers| ==> s.workers[w].Idle?
    requires forall m :: 0 <= m < |s.msgs| ==> !Waits(s.msgs[m])
    ensures HasOutcome(s, j)
  {
    SumZero(s.msgs, QueuedCoin(j));
    SumZero(s.workers, HandlerCoin(j));
    if DeadCopies(s, j) == 1 { DeadAfterFour(s, j); }
  }

  /** Nothing can move: every worker is free and no message waits. */
  lemma QuietState(s: State)
    requires Calm(s) && |s.workers| >= 1 && !CanMove(s)
    ensures forall w :: 0 <= w < |s.workers| ==> s.workers[w].Idle?
    ensures forall m :: 0 <= m < |s.msgs| ==> !Waits(s.msgs[m])
  {
    forall w | 0 <= w < |s.workers| ensures s.workers[w].Idle? {
      if s.workers[w].Busy? { BusyCanMove(s, w); }
    }
    forall m | 0 <= m < |s.msgs| ensures !Waits(s.msgs[m]) {
      if Waits(s.msgs[m]) { WaitingCanMove(s, m); }
    }
  }

  /** With any positive number of workers: when no move is left, every accepted job has its outcome. */
  lemma QuiescentOutcome(n: nat, es: seq<Event>, j: JobId)
    requires n >= 1 && FaultlessRun(es) && IsAccepted(Run(Init(n), es), j) && !CanMove(Run(Init(n), es))
    ensures HasOutcome(Run(Init(n), es), j)
  {
    InOrderAlways(n, es);
    WorkersKeepNumber(n, es);
    QuietState(Run(Init(n), es));
    assert Balanced(Run(Init(n), es), j);
    QuietHasOutcome(Run(Init(n), es), j);
  }
}

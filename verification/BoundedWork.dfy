/**
  * Retries are bounded: a job is attempted at most 4 times, plus 4 times for each
  * time the broker took one of its messages back, whatever else fails.
  */
module BoundedWork {
  import opened Domain
  import opened Retry
  import opened Protocol
  import opened Wellformed
  import opened Sums

  /** Two measures of the work a job can still cause: attempts, or copies in flight. */
  datatype Measure = Starts | Copies

  /** What the first publish of a job allows: 4 attempts, 1 copy. */
  function Allowance(k: Measure): int {
    if k.Starts? then 4 else 1
  }

  /** A waiting message with count c may still lead to max(4 - c, 1) attempts; it is one copy. */
  function Worth(k: Measure, hd: Header): (v: nat)
    ensures LadderHeader(hd) ==> v <= Allowance(k)
  {
    if k.Starts? then Potential(hd) else 1
  }

  function QueueWeight(k: Measure, j: JobId): Message -> int {
    (m: Message) => if For(m.body, j) && (m.place.InJobs? || m.place.InRetry?) then Worth(k, m.header) else 0
  }

  /** A handler carries its message's weight; one attempt less once it has started, nothing once it published. */
  function HandlerWeight(k: Measure, j: JobId): Handler -> int {
    (h: Handler) =>
      if h.Idle? || !For(h.body, j) then 0
      else match h.phase
        case Received => Worth(k, h.header)
        case Begin => Worth(k, h.header)
        case Running => if k.Starts? then Potential(h.header) - 1 else 1
        case Completing(_) => if k.Starts? then Potential(h.header) - 1 else 1
        case DoneAck => if k.Starts? then Potential(h.header) - 1 else 1
        case Publishing(_) => if k.Starts? then Potential(h.header) - 1 else 1
        case _ => 0
  }

  function RequeueWeight(j: JobId): Message -> int {
    (m: Message) => if For(m.body, j) then m.requeues else 0
  }

  /** Attempts already made. */
  function Attempts(s: State, j: JobId): nat {
    if j in s.rows then s.rows[j].attempts else 0
  }

  /** How often the broker requeued a message of the job. */
  function Requeues(s: State, j: JobId): int {
    Sum(s.msgs, RequeueWeight(j))
  }

  /** Work done and still possible, less one allowance for each requeue. */
  function Account(k: Measure, s: State, j: JobId): int {
    (if k.Starts? then Attempts(s, j) else 0)
    + Sum(s.msgs, QueueWeight(k, j)) + Sum(s.workers, HandlerWeight(k, j)) - Allowance(k) * Requeues(s, j)
  }

  function MsgAccount(k: Measure, m: Message, j: JobId): int {
    QueueWeight(k, j)(m) - Allowance(k) * RequeueWeight(j)(m)
  }

  lemma ReplaceMessage(k: Measure, s: State, i: nat, m: Message, j: JobId)
    requires i < |s.msgs|
    ensures Account(k, s.(msgs := s.msgs[i := m]), j)
         == Account(k, s, j) - MsgAccount(k, s.msgs[i], j) + MsgAccount(k, m, j)
  {
    SumUpdate(s.msgs, i, m, QueueWeight(k, j));
    SumUpdate(s.msgs, i, m, RequeueWeight(j));
  }

  lemma AddMessage(k: Measure, s: State, m: Message, j: JobId)
    ensures Account(k, s.(msgs := s.msgs + [m]), j) == Account(k, s, j) + MsgAccount(k, m, j)
  {
    SumAppend(s.msgs, m, QueueWeight(k, j));
    SumAppend(s.msgs, m, RequeueWeight(j));
  }

  lemma ReplaceHandler(k: Measure, s: State, w: nat, h: Handler, j: JobId)
    requires w < |s.workers|
    ensures Account(k, SetWorker(s, w, h), j)
         == Account(k, s, j) - HandlerWeight(k, j)(s.workers[w]) + HandlerWeight(k, j)(h)
  {
    SumUpdate(s.workers, w, h, HandlerWeight(k, j));
  }

  /** What an awaited call adds to the account if it takes effect. */
  function CallCost(k: Measure, c: Call, j: JobId): int {
    if c.Publish? then MsgAccount(k, c.msg, j)
    else if c.Exec? && c.update.MarkProcessing? && c.job == j && k.Starts? then 1
    else 0
  }

  lemma PerformedAccount(k: Measure, s: State, h: Handler, c: Call, j: JobId)
    requires h.Busy? && h.id < |s.msgs| && (s.msgs[h.id].body.JobBody? ==> LadderHeader(s.msgs[h.id].header))
    ensures Account(k, Performed(s, h, c), j) <= Account(k, s, j) + CallCost(k, c, j)
  {
    if c.Publish? { AddMessage(k, s, c.msg, j); }
    if (c.Ack? || c.Reject? || c.NackBack?) && Held(s, h) {
      var t := Performed(s, h, c);
      assert t == s.(msgs := s.msgs[h.id := t.msgs[h.id]]);
      ReplaceMessage(k, s, h.id, t.msgs[h.id], j);
    }
  }

  /** A handler pays for its own attempt and for its successor out of its weight. */
  lemma HandlerPays(k: Measure, rows: map<JobId, Row>, h: Handler, o: Outcome, err: string, j: JobId)
    requires h.Busy? && WorkEnabled(h, o) && (h.body.JobBody? ==> LadderHeader(h.header))
    ensures HandlerWeight(k, j)(Resumes(rows, h, o, err)) + CallCost(k, Awaits(h), j) <= HandlerWeight(k, j)(h)
    ensures HandlerWeight(k, j)(Resumes(rows, h, o, err)) <= HandlerWeight(k, j)(h)
    ensures var r := Resumes(rows, h, o, err);
            k.Copies? && For(h.body, j) && r.Busy? && r.phase.Burying? ==>
              HandlerWeight(k, j)(r) < HandlerWeight(k, j)(h)
  {
    if h.body.JobBody? { LadderDescends(h.header); }
  }

  lemma WorkAccount(k: Measure, s: State, w: nat, o: Outcome, err: string, j: JobId)
    requires TagsUnique(s) && MessagesKnown(s) && Enabled(s, Work(w, o, err)) && j < |s.uploads|
    ensures Account(k, WorkStep(s, w, o, err), j) <= Account(k, s, j)
  {
    var h := s.workers[w];
    var s1 := if o.applied then Performed(s, h, Awaits(h)) else s;
    var r := Resumes(s.rows, h, o, err);
    PerformedAccount(k, s, h, Awaits(h), j);
    HandlerPays(k, s.rows, h, o, err, j);
    ReplaceHandler(k, s1, w, r, j);
  }

  lemma DeliverAccount(k: Measure, s: State, w: nat, m: nat, j: JobId)
    requires Enabled(s, Deliver(w, m))
    ensures Account(k, DeliverStep(s, w, m), j) == Account(k, s, j)
  {
    var t := DeliverStep(s, w, m);
    var s1 := s.(msgs := s.msgs[m := t.msgs[m]]);
    ReplaceMessage(k, s, m, t.msgs[m], j);
    ReplaceHandler(k, s1, w, t.workers[w], j);
    assert Account(k, t, j) == Account(k, SetWorker(s1, w, t.workers[w]), j);
  }

  lemma PublishAccount(k: Measure, s: State, u: JobId, o: Outcome, j: JobId)
    requires u < |s.uploads| && s.uploads[u].phase.Saved?
    ensures Account(k, ServeStep(s, u, o, None), j) - Account(k, s, j) <= if u == j then Allowance(k) else 0
  {
    AddMessage(k, s, Message(JobBody(u, FinalPath(s, u)), Absent, InJobs, 0), j);
  }

  lemma SilentServeAccount(k: Measure, s: State, u: JobId, o: Outcome, found: Option<JobId>, j: JobId)
    requires Wf(s) && Enabled(s, Serve(u, o, found)) && !s.uploads[u].phase.Saved?
    ensures Account(k, ServeStep(s, u, o, found), j) <= Account(k, s, j)
  {
    var t := ServeStep(s, u, o, found);
    assert t.msgs == s.msgs && t.workers == s.workers && Attempts(t, j) <= Attempts(s, j);
  }

  lemma ServeAccount(k: Measure, s: State, u: JobId, o: Outcome, found: Option<JobId>, j: JobId)
    requires Wf(s) && Enabled(s, Serve(u, o, found)) && j < |s.uploads|
    ensures var d := Account(k, ServeStep(s, u, o, found), j) - Account(k, s, j);
            if u == j && s.uploads[j].phase.Saved? then d <= Allowance(k) else d <= 0
  {
    if s.uploads[u].phase.Saved? {
      PublishAccount(k, s, u, o, j);
      assert ServeStep(s, u, o, found) == ServeStep(s, u, o, None);
    } else {
      SilentServeAccount(k, s, u, o, found, j);
    }
  }

  lemma HandlerEndAccount(k: Measure, s: State, e: Event, j: JobId)
    requires Wf(s) && Enabled(s, e) && (e.Pipeline? || e.Crash?)
    ensures Account(k, Apply(s, e), j) <= Account(k, s, j)
  {
    ReplaceHandler(k, s, e.w, Apply(s, e).workers[e.w], j);
    if s.workers[e.w].Busy? && s.workers[e.w].body.JobBody? { LadderDescends(s.workers[e.w].header); }
  }

  lemma EnvironmentAccount(k: Measure, s: State, e: Event, j: JobId)
    requires Wf(s) && Enabled(s, e) && (e.Requeue? || e.Expire? || e.Inject?)
    ensures Account(k, Apply(s, e), j) <= Account(k, s, j)
  {
    match e {
      case Requeue(m) => ReplaceMessage(k, s, m, Requeued(s.msgs[m]), j);
      case Expire(m) => ReplaceMessage(k, s, m, Apply(s, e).msgs[m], j);
      case Inject(hd) => AddMessage(k, s, Message(Malformed, hd, InJobs, 0), j);
    }
  }

  /** Only the confirmed or unconfirmed first publish of a job raises its account, by one allowance. */
  lemma AccountStep(k: Measure, s: State, e: Event, j: JobId)
    requires Wf(s) && Enabled(s, e) && j < |s.uploads|
    ensures var d := Account(k, Apply(s, e), j) - Account(k, s, j);
            if e.Serve? && e.u == j && s.uploads[j].phase.Saved? then d <= Allowance(k) else d <= 0
  {
    match e {
      case Work(w, o, err) => WorkAccount(k, s, w, o, err, j);
      case Deliver(w, m) => DeliverAccount(k, s, w, m, j);
      case Serve(u, o, found) => ServeAccount(k, s, u, o, found, j);
      case Pipeline(_, _, _) => HandlerEndAccount(k, s, e, j);
      case Crash(_) => HandlerEndAccount(k, s, e, j);
      case Requeue(_) => EnvironmentAccount(k, s, e, j);
      case Expire(_) => EnvironmentAccount(k, s, e, j);
      case Inject(_) => EnvironmentAccount(k, s, e, j);
      case _ =>
    }
  }

  /** Burying a job ends its last copy. */
  lemma BuryingAccount(s: State, w: nat, o: Outcome, err: string, j: JobId)
    requires Wf(s) && Enabled(s, Work(w, o, err)) && For(s.workers[w].body, j) && j < |s.uploads|
    requires var r := Resumes(s.rows, s.workers[w], o, err); r.Busy? && r.phase.Burying?
    ensures Account(Copies, WorkStep(s, w, o, err), j) < Account(Copies, s, j)
  {
    var h := s.workers[w];
    var s1 := if o.applied then Performed(s, h, Awaits(h)) else s;
    LadderDescends(h.header);
    PerformedAccount(Copies, s, h, Awaits(h), j);
    HandlerPays(Copies, s.rows, h, o, err, j);
    ReplaceHandler(Copies, s1, w, Resumes(s.rows, h, o, err), j);
  }

  /** Before its publish a job has no message and no handler. */
  lemma UnpublishedAccount(k: Measure, s: State, j: JobId)
    requires Wf(s) && j < |s.uploads| && !Published(s.uploads[j].phase)
    ensures Account(k, s, j) == if k.Starts? then Attempts(s, j) else 0
  {
    SumZero(s.msgs, QueueWeight(k, j));
    SumZero(s.msgs, RequeueWeight(j));
    SumZero(s.workers, HandlerWeight(k, j));
  }

  predicate Untouched(s: State, j: JobId) {
    j in s.rows ==> s.rows[j].attempts == 0 && s.rows[j].status.Queued?
  }

  /** Only a handler of the job starts an attempt. */
  lemma UnpublishedUntouched(s: State, e: Event, j: JobId)
    requires Wf(s) && Enabled(s, e) && j < |s.uploads| && Untouched(s, j)
    requires !Published(Apply(s, e).uploads[j].phase)
    ensures Untouched(Apply(s, e), j)
  {
    if e.Work? {
      assert !For(s.workers[e.w].body, j);
    } else {
      RowsElsewhere(s, e, j);
    }
  }

  ghost predicate JobBounded(s: State, j: JobId)
    requires j < |s.uploads|
  {
    && Account(Starts, s, j) <= 4
    && Account(Copies, s, j) <= 1
    && (!Published(s.uploads[j].phase) ==> Untouched(s, j))
  }

  /** The job's row is failed, or is about to be. */
  ghost predicate Buried(s: State, j: JobId) {
    (j in s.rows && s.rows[j].status.Failed?)
    || exists w :: 0 <= w < |s.workers| && s.workers[w].Busy? && s.workers[w].phase.Burying?
                   && For(s.workers[w].body, j)
  }

  ghost predicate WorkBounded(s: State) {
    forall j :: 0 <= j < |s.uploads| ==> JobBounded(s, j) && (Buried(s, j) ==> Account(Copies, s, j) <= 0)
  }

  lemma JobBoundedStep(s: State, e: Event, j: JobId)
    requires Wf(s) && Enabled(s, e) && j < |s.uploads| && JobBounded(s, j)
    ensures JobBounded(Apply(s, e), j)
  {
    AccountStep(Starts, s, e, j);
    AccountStep(Copies, s, e, j);
    if !Published(s.uploads[j].phase) {
      UnpublishedAccount(Starts, s, j);
      UnpublishedAccount(Copies, s, j);
    }
    if !Published(Apply(s, e).uploads[j].phase) { UnpublishedUntouched(s, e, j); }
  }

  lemma BuriedElsewhere(s: State, e: Event, j: JobId)
    requires Wf(s) && Enabled(s, e) && !e.Work? && Buried(Apply(s, e), j)
    ensures Buried(s, j)
  {
    var t := Apply(s, e);
    RowsElsewhere(s, e, j);
    if !(j in t.rows && t.rows[j].status.Failed?) {
      var w :| 0 <= w < |t.workers| && t.workers[w].Busy? && t.workers[w].phase.Burying? && For(t.workers[w].body, j);
      WorkersElsewhere(s, e, w);
    }
  }

  lemma BuriedByWork(s: State, w: nat, o: Outcome, err: string, j: JobId)
    requires Wf(s) && Enabled(s, Work(w, o, err)) && Buried(WorkStep(s, w, o, err), j) && !Buried(s, j)
    ensures var r := WorkStep(s, w, o, err).workers[w];
            For(s.workers[w].body, j) && r.Busy? && r.phase.Burying?
  {
    ResumesSameDelivery(s.rows, s.workers[w], o, err);
  }

  /** A job becomes buried only by its handler's dead publish, and stays published. */
  lemma BuriedBefore(s: State, e: Event, j: JobId)
    requires Wf(s) && Enabled(s, e) && j < |s.uploads| && Buried(Apply(s, e), j)
    ensures Buried(s, j)
            || (e.Work? && For(s.workers[e.w].body, j) && Apply(s, e).workers[e.w].Busy?
                && Apply(s, e).workers[e.w].phase.Burying?)
  {
    if !e.Work? {
      BuriedElsewhere(s, e, j);
    } else if !Buried(s, j) {
      BuriedByWork(s, e.w, e.outcome, e.error, j);
    }
  }

  lemma BuriedStep(s: State, e: Event, j: JobId)
    requires Wf(s) && Enabled(s, e) && j < |s.uploads| && JobBounded(s, j)
    requires Buried(s, j) ==> Account(Copies, s, j) <= 0
    requires Buried(Apply(s, e), j)
    ensures Account(Copies, Apply(s, e), j) <= 0
  {
    BuriedBefore(s, e, j);
    if Buried(s, j) {
      AccountStep(Copies, s, e, j);
    } else {
      BuryingAccount(s, e.w, e.outcome, e.error, j);
    }
  }

  lemma WorkBoundedStep(s: State, e: Event)
    requires Wf(s) && WorkBounded(s) && Enabled(s, e)
    ensures WorkBounded(Apply(s, e))
  {
    var t := Apply(s, e);
    WfNext(s, e);
    forall j | 0 <= j < |t.uploads| ensures JobBounded(t, j) && (Buried(t, j) ==> Account(Copies, t, j) <= 0) {
      if j < |s.uploads| {
        JobBoundedStep(s, e, j);
        if Buried(t, j) { BuriedStep(s, e, j); }
      } else {
        UnpublishedAccount(Starts, t, j);
        UnpublishedAccount(Copies, t, j);
      }
    }
  }

  lemma {:induction false} WorkBoundedAlways(n: nat, es: seq<Event>)
    ensures WorkBounded(Run(Init(n), es))
  {
    if es != [] {
      var s := Run(Init(n), es[..|es| - 1]);
      WorkBoundedAlways(n, es[..|es| - 1]);
      WfAlways(n, es[..|es| - 1]);
      if Enabled(s, es[|es| - 1]) {
        WorkBoundedStep(s, es[|es| - 1]);
      }
    }
  }

  lemma WeightsNonNegative(k: Measure, s: State, j: JobId)
    requires TagsUnique(s)
    ensures Sum(s.msgs, QueueWeight(k, j)) >= 0 && Sum(s.workers, HandlerWeight(k, j)) >= 0
  {
    SumNonNegative(s.msgs, QueueWeight(k, j));
    SumNonNegative(s.workers, HandlerWeight(k, j));
  }

  /** Attempts never exceed 4 * (1 + requeues), and what is still outstanding fits below it. */
  lemma AttemptsBounded(n: nat, es: seq<Event>, j: JobId)
    ensures var s := Run(Init(n), es);
            j in s.rows ==>
              && s.rows[j].attempts + Sum(s.msgs, QueueWeight(Starts, j)) + Sum(s.workers, HandlerWeight(Starts, j))
                   <= 4 + 4 * Requeues(s, j)
              && s.rows[j].attempts <= 4 * (1 + Requeues(s, j))
  {
    var s := Run(Init(n), es);
    WorkBoundedAlways(n, es);
    WfAlways(n, es);
    if j in s.rows {
      assert JobBounded(s, j);
      WeightsNonNegative(Starts, s, j);
    }
  }

  /** A job has at most one copy in flight, plus one for each requeue; none is left when it fails unrequeued. */
  lemma CopiesBounded(n: nat, es: seq<Event>, j: JobId)
    ensures var s := Run(Init(n), es);
            var copies := Sum(s.msgs, QueueWeight(Copies, j)) + Sum(s.workers, HandlerWeight(Copies, j));
            j < |s.uploads| ==>
              && copies <= 1 + Requeues(s, j)
              && (j in s.rows && s.rows[j].status.Failed? ==> copies <= Requeues(s, j))
  {
    var s := Run(Init(n), es);
    WorkBoundedAlways(n, es);
    if j < |s.uploads| { assert JobBounded(s, j); }
  }

  /** Every retry decision of a reachable handler is in range, and its header is absent or in 1..3. */
  lemma DecisionInRange(n: nat, es: seq<Event>, w: nat)
    ensures var s := Run(Init(n), es);
            w < |s.workers| && s.workers[w].Busy? && s.workers[w].body.JobBody? ==>
              LadderHeader(s.workers[w].header) && !Decide(RetryCount(s.workers[w].header)).IndexError?
  {
    WfAlways(n, es);
  }
}

/**
  * Schedules without requeues, crashes of the worker or failing database and broker
  * calls; the pipeline may still fail.  Each accepted job is one token that is never
  * duplicated or dropped, and every schedule brings it to `completed` or `failed`.
  */
module FaultFree {
  import opened Domain
  import opened Retry
  import opened Protocol
  import opened Wellformed
  import opened Sums

  predicate Fine(o: Outcome) {
    o.applied && !o.raised
  }

  predicate Faultless(e: Event) {
    && !e.Crash? && !e.Requeue?
    && (e.Serve? ==> Fine(e.outcome))
    && (e.Work? ==> Fine(e.outcome))
  }

  predicate FaultlessRun(es: seq<Event>) {
    forall i :: 0 <= i < |es| ==> Faultless(es[i])
  }

  /** The events that move a job along: everything but uploads and progress reports. */
  predicate IsMove(e: Event) {
    e.Deliver? || e.Work? || e.Pipeline? || e.Expire?
  }

  /* ---------- termination ---------- */

  function FuelOfMessage(m: Message): nat {
    match m.place
    case InJobs => if m.body.Malformed? then 2 else 16 * Potential(m.header)
    case InRetry(_) => if m.body.Malformed? then 3 else 16 * Potential(m.header) + 1
    case _ => 0
  }

  function FuelOfHandler(h: Handler): int {
    if h.Idle? then 0
    else match h.phase
      case Received => 16 * Potential(h.header) - 1
      case Begin => 16 * Potential(h.header) - 2
      case Running => 16 * Potential(h.header) - 3
      case Completing(_) => 16 * Potential(h.header) - 4
      case Publishing(_) => 16 * Potential(h.header) - 4
      case Recording(_) => 2
      case Burying(_) => 2
      case _ => 1
  }

  function MessageFuel(): Message -> int { (m: Message) => FuelOfMessage(m) as int }
  function HandlerFuel(): Handler -> int { (h: Handler) => FuelOfHandler(h) }

  function Fuel(s: State): int {
    Sum(s.msgs, MessageFuel()) + Sum(s.workers, HandlerFuel())
  }

  lemma FuelMessage(s: State, i: nat, m: Message)
    requires i < |s.msgs|
    ensures Fuel(s.(msgs := s.msgs[i := m])) == Fuel(s) - FuelOfMessage(s.msgs[i]) + FuelOfMessage(m)
  {
    SumUpdate(s.msgs, i, m, MessageFuel());
  }

  lemma FuelHandler(s: State, w: nat, h: Handler)
    requires w < |s.workers|
    ensures Fuel(SetWorker(s, w, h)) == Fuel(s) - FuelOfHandler(s.workers[w]) + FuelOfHandler(h)
  {
    SumUpdate(s.workers, w, h, HandlerFuel());
  }

  lemma FuelPerformed(s: State, h: Handler, c: Call)
    requires h.Busy? && h.id < |s.msgs| && !c.NackBack?
    ensures Fuel(Performed(s, h, c)) <= Fuel(s) + if c.Publish? then FuelOfMessage(c.msg) else 0
  {
    if c.Publish? { SumAppend(s.msgs, c.msg, MessageFuel()); }
    if (c.Ack? || c.Reject?) && Held(s, h) {
      var t := Performed(s, h, c);
      assert t == s.(msgs := s.msgs[h.id := t.msgs[h.id]]);
      FuelMessage(s, h.id, t.msgs[h.id]);
    }
  }

  lemma HandlerBurns(rows: map<JobId, Row>, h: Handler, o: Outcome, err: string)
    requires h.Busy? && WorkEnabled(h, o) && (h.body.JobBody? ==> LadderHeader(h.header))
    requires Fine(o)
    ensures FuelOfHandler(Resumes(rows, h, o, err))
            + (if Awaits(h).Publish? then FuelOfMessage(Awaits(h).msg) else 0) < FuelOfHandler(h)
  {
    if h.body.JobBody? { LadderDescends(h.header); }
  }

  lemma WorkBurns(s: State, w: nat, o: Outcome, err: string)
    requires Wf(s) && Enabled(s, Work(w, o, err)) && Fine(o) && !s.workers[w].phase.Nacking?
    ensures Fuel(WorkStep(s, w, o, err)) < Fuel(s)
  {
    var h := s.workers[w];
    FuelPerformed(s, h, Awaits(h));
    HandlerBurns(s.rows, h, o, err);
    FuelHandler(Performed(s, h, Awaits(h)), w, Resumes(s.rows, h, o, err));
  }

  lemma DeliverBurns(s: State, w: nat, m: nat)
    requires Wf(s) && Enabled(s, Deliver(w, m))
    ensures Fuel(DeliverStep(s, w, m)) < Fuel(s)
  {
    var t := DeliverStep(s, w, m);
    var s1 := s.(msgs := s.msgs[m := t.msgs[m]]);
    FuelMessage(s, m, t.msgs[m]);
    FuelHandler(s1, w, t.workers[w]);
    assert Fuel(t) == Fuel(SetWorker(s1, w, t.workers[w]));
  }

  ghost predicate NoNacking(s: State) {
    forall w :: 0 <= w < |s.workers| && s.workers[w].Busy? ==> !s.workers[w].phase.Nacking?
  }

  lemma MoveBurns(s: State, e: Event)
    requires Wf(s) && NoNacking(s) && Enabled(s, e) && Faultless(e) && IsMove(e)
    ensures Fuel(Apply(s, e)) < Fuel(s)
  {
    match e {
      case Work(w, o, err) => WorkBurns(s, w, o, err);
      case Deliver(w, m) => DeliverBurns(s, w, m);
      case Pipeline(w, _, _) => FuelHandler(s, w, Apply(s, e).workers[w]);
      case Expire(m) => FuelMessage(s, m, Apply(s, e).msgs[m]);
    }
  }

  /** What uploads and foreign messages pay in. */
  function Grant(): Upload -> int { (u: Upload) => if u.phase.Accepted? then 64 else 0 }
  function Foreign(): Message -> int { (m: Message) => if m.body.Malformed? then 2 else 0 }

  function Granted(s: State): int {
    Sum(s.uploads, Grant()) + Sum(s.msgs, Foreign())
  }

  lemma NoNackingStep(s: State, e: Event)
    requires NoNacking(s) && Enabled(s, e) && Faultless(e)
    ensures NoNacking(Apply(s, e))
  {
  }

  lemma MoveMessages(s: State, e: Event)
    requires Enabled(s, e) && IsMove(e) && TagsUnique(s) && MessagesKnown(s)
    ensures var t := Apply(s, e);
            && t.uploads == s.uploads
            && (|| t.msgs == s.msgs
                || (|t.msgs| == |s.msgs| + 1 && t.msgs == s.msgs + [t.msgs[|s.msgs|]] && t.msgs[|s.msgs|].body.JobBody?)
                || (e.Work? && s.workers[e.w].id < |s.msgs| == |t.msgs|
                    && var i := s.workers[e.w].id; t.msgs == s.msgs[i := t.msgs[i]] && t.msgs[i].body == s.msgs[i].body)
                || ((e.Deliver? || e.Expire?) && e.m < |s.msgs| == |t.msgs| && t.msgs == s.msgs[e.m := t.msgs[e.m]]
                    && t.msgs[e.m].body == s.msgs[e.m].body))
  {
  }

  /** The foreign messages of a state keep their weight when one message changes its place. */
  lemma ForeignReplaced(msgs: seq<Message>, i: nat, m: Message)
    requires i < |msgs| && m.body == msgs[i].body
    ensures Sum(msgs[i := m], Foreign()) == Sum(msgs, Foreign())
  {
    SumUpdate(msgs, i, m, Foreign());
  }

  lemma GrantedMove(s: State, e: Event)
    requires Enabled(s, e) && IsMove(e)
    requires MessagesKnown(s) && TagsUnique(s)
    ensures Granted(Apply(s, e)) == Granted(s)
  {
    var msgs := Apply(s, e).msgs;
    MoveMessages(s, e);
    if |msgs| > |s.msgs| {
      SumAppend(s.msgs, msgs[|s.msgs|], Foreign());
    } else if msgs != s.msgs {
      var i: nat := if e.Work? then s.workers[e.w].id else e.m;
      ForeignReplaced(s.msgs, i, msgs[i]);
    }
  }

  /** Without faults `create` never turns to its rollback, and its publish accepts the upload. */
  lemma FineServe(s: State, u: JobId, o: Outcome, found: Option<JobId>)
    requires u < |s.uploads| && ServeEnabled(s, u, o, found) && Fine(o)
    ensures var t, p := ServeStep(s, u, o, found), s.uploads[u].phase;
            && t.uploads == s.uploads[u := s.uploads[u].(phase := t.uploads[u].phase)] && t.workers == s.workers
            && !p.Accepted? && (t.uploads[u].phase.Accepted? <==> p.Saved?)
            && (t.uploads[u].phase.Undoing? || t.uploads[u].phase.Unsaved? ==> p.Undoing? || p.Unsaved?)
            && t.msgs == if p.Saved? then s.msgs + [Message(JobBody(u, FinalPath(s, u)), Absent, InJobs, 0)] else s.msgs
  {
  }

  lemma GrantedServe(s: State, u: JobId, o: Outcome, found: Option<JobId>)
    requires u < |s.uploads| && ServeEnabled(s, u, o, found) && Fine(o)
    ensures var t := ServeStep(s, u, o, found); Fuel(t) - Fuel(s) <= Granted(t) - Granted(s)
  {
    var t := ServeStep(s, u, o, found);
    FineServe(s, u, o, found);
    SumUpdate(s.uploads, u, t.uploads[u], Grant());
    var m := Message(JobBody(u, FinalPath(s, u)), Absent, InJobs, 0);
    SumAppend(s.msgs, m, Foreign());
    SumAppend(s.msgs, m, MessageFuel());
    assert FuelOfMessage(m) == 64;
  }

  lemma GrantedOther(s: State, e: Event)
    requires Enabled(s, e) && Faultless(e) && !IsMove(e) && !e.Serve?
    ensures Fuel(Apply(s, e)) - Fuel(s) <= Granted(Apply(s, e)) - Granted(s)
  {
    var t := Apply(s, e);
    if e.Inject? {
      SumAppend(s.msgs, t.msgs[|s.msgs|], Foreign());
      SumAppend(s.msgs, t.msgs[|s.msgs|], MessageFuel());
    } else if e.Arrive? {
      SumAppend(s.uploads, t.uploads[|s.uploads|], Grant());
    } else if e.ServerCrash? {
      SumUpdate(s.uploads, e.u, t.uploads[e.u], Grant());
    }
  }

  /** How many events of a schedule really moved something. */
  ghost function Moves(s: State, es: seq<Event>): nat {
    if es == [] then 0
    else
      var before, e := es[..|es| - 1], es[|es| - 1];
      Moves(s, before) + if IsMove(e) && Enabled(Run(s, before), e) then 1 else 0
  }

  lemma {:induction false} MovesPaid(n: nat, es: seq<Event>)
    requires FaultlessRun(es)
    ensures var s := Run(Init(n), es);
            NoNacking(s) && Moves(Init(n), es) + Fuel(s) <= Granted(s)
  {
    if es == [] {
      SumZero(Init(n).workers, HandlerFuel());
    } else {
      var s, e := Run(Init(n), es[..|es| - 1]), es[|es| - 1];
      MovesPaid(n, es[..|es| - 1]);
      WfAlways(n, es[..|es| - 1]);
      if Enabled(s, e) {
        NoNackingStep(s, e);
        if IsMove(e) {
          MoveBurns(s, e);
          GrantedMove(s, e);
        } else if e.Serve? {
          GrantedServe(s, e.u, e.outcome, e.found);
        } else {
          GrantedOther(s, e);
        }
      }
    }
  }

  /** Termination, with any number of workers: at most 64 moves an accepted upload and 2 a foreign message. */
  lemma MovesBounded(n: nat, es: seq<Event>)
    requires FaultlessRun(es)
    ensures Moves(Init(n), es) <= Granted(Run(Init(n), es))
  {
    var s := Run(Init(n), es);
    MovesPaid(n, es);
    WfAlways(n, es);
    SumNonNegative(s.msgs, MessageFuel());
    SumNonNegative(s.workers, HandlerFuel());
  }
}

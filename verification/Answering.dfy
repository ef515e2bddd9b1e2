/**
  * Every delivery is answered: what becomes of the message of a handler that ends by itself.
  * With prefetch 1 an unanswered message would stop the consumer for good.
  */
module Answering {
  import opened Domain
  import opened Retry
  import opened Protocol
  import opened Wellformed
  import opened Cluster
  import opened WorkerProcess
  import opened Parking

  /* ---------- delivery tags ---------- */

  ghost predicate TagsDistinct(s: State) {
    forall v, w :: 0 <= v < w < |s.workers| && s.workers[v].Busy? && s.workers[w].Busy? ==>
      s.workers[v].tag != s.workers[w].tag
  }

  lemma TagsDistinctWork(s: State, w: nat, o: Outcome, err: string)
    requires TagsDistinct(s) && Enabled(s, Work(w, o, err))
    ensures TagsDistinct(WorkStep(s, w, o, err))
  {
    ResumesSameDelivery(s.rows, s.workers[w], o, err);
  }

  lemma TagsDistinctDeliver(s: State, w: nat, m: nat)
    requires TagsUnique(s) && TagsDistinct(s) && Enabled(s, Deliver(w, m))
    ensures TagsDistinct(DeliverStep(s, w, m))
  {
  }

  lemma TagsDistinctNext(s: State, e: Event)
    requires TagsUnique(s) && TagsDistinct(s)
    ensures TagsDistinct(Next(s, e))
  {
    if Enabled(s, e) {
      if e.Work? {
        TagsDistinctWork(s, e.w, e.outcome, e.error);
      } else if e.Deliver? {
        TagsDistinctDeliver(s, e.w, e.m);
      } else {
        forall w | 0 <= w < |s.workers| { WorkersElsewhere(s, e, w); }
      }
    }
  }

  /** No two handlers ever work with the same delivery tag. */
  lemma {:induction false} TagsDistinctAlways(n: nat, es: seq<Event>)
    ensures TagsDistinct(Run(Init(n), es))
  {
    if es != [] {
      TagsDistinctAlways(n, es[..|es| - 1]);
      WfAlways(n, es[..|es| - 1]);
      TagsDistinctNext(Run(Init(n), es[..|es| - 1]), es[|es| - 1]);
    }
  }

  /** The handler of worker w works on the current delivery of its message, in a sound state. */
  ghost predicate Delivered(s: State, w: nat) {
    Wf(s) && TagsDistinct(s) && Handles(s, w) && Held(s, s.workers[w])
  }

  /* ---------- what others leave alone ---------- */

  lemma OthersKeepDelivery(s: State, e: Event, w: nat)
    requires Delivered(s, w) && ByOthers(e, w) && e != Requeue(s.workers[w].id)
    ensures Delivered(Next(s, e), w) && Next(s, e).workers[w] == s.workers[w]
    ensures Next(s, e).msgs[s.workers[w].id] == s.msgs[s.workers[w].id]
  {
    WfNext(s, e);
    TagsDistinctNext(s, e);
    OthersKeepHandler(s, e, w);
    OthersKeepMessage(s, e, w);
  }

  lemma WorkersKeepMessage(s: State, v: nat, o: Outcome, err: string, w: nat)
    requires Delivered(s, w) && v != w && Enabled(s, Work(v, o, err))
    ensures var id, t := s.workers[w].id, WorkStep(s, v, o, err); id < |t.msgs| && t.msgs[id] == s.msgs[id]
  {
  }

  lemma OthersKeepMessage(s: State, e: Event, w: nat)
    requires Delivered(s, w) && ByOthers(e, w) && e != Requeue(s.workers[w].id)
    ensures var id := s.workers[w].id; id < |Next(s, e).msgs| && Next(s, e).msgs[id] == s.msgs[id]
  {
    if Enabled(s, e) && e.Work? { WorkersKeepMessage(s, e.w, e.outcome, e.error, w); }
  }

  lemma {:induction false} ForeignKeepsDelivery(s: State, es: seq<Event>, w: nat)
    requires Delivered(s, w) && Requeue(s.workers[w].id) !in es
    ensures var t := Run(s, Foreign(es, w));
            && Delivered(t, w) && t.workers[w] == s.workers[w]
            && t.msgs[s.workers[w].id] == s.msgs[s.workers[w].id]
  {
    if es != [] {
      var fs, e := Foreign(es[..|es| - 1], w), es[|es| - 1];
      ForeignKeepsDelivery(s, es[..|es| - 1], w);
      if ByOthers(e, w) {
        RunSnoc(s, fs, e);
        assert e in es;
        OthersKeepDelivery(Run(s, fs), e, w);
      }
    }
  }

  lemma SettledStep(s: State, e: Event, id: nat)
    requires id < |s.msgs| && (s.msgs[id].place.Gone? || s.msgs[id].place.InDead?)
    ensures id < |Next(s, e).msgs| && Next(s, e).msgs[id] == s.msgs[id]
  {
  }

  /** An acknowledged or parked message is never touched again. */
  lemma {:induction false} SettledStays(s: State, es: seq<Event>, id: nat)
    requires id < |s.msgs| && (s.msgs[id].place.Gone? || s.msgs[id].place.InDead?)
    ensures id < |Run(s, es).msgs| && Run(s, es).msgs[id] == s.msgs[id]
  {
    if es != [] {
      SettledStays(s, es[..|es| - 1], id);
      SettledStep(Run(s, es[..|es| - 1]), es[|es| - 1], id);
    }
  }

  /* ---------- the first answer ---------- */

  datatype Answer = Acked | Rejected | Returned | Silent

  predicate Answers(p: Phase) {
    p.RejectPoison? || p.SkipAck? || p.DoneAck? || p.HandledAck? || p.Nacking?
  }

  /** The first ack or nack the handler makes. */
  function FirstAnswer(s: State, w: nat, script: seq<Beat>): Answer
    decreases |script|
  {
    if !IsBusy(s, w) || script == [] then Silent
    else match s.workers[w].phase
      case RejectPoison => Rejected
      case SkipAck => Acked
      case DoneAck => Acked
      case HandledAck => Acked
      case Nacking => Returned
      case _ => FirstAnswer(Leaves(s, w, script[0]), w, script[1..])
  }

  /** That ack or nack takes effect. */
  predicate AnswerApplies(s: State, w: nat, script: seq<Beat>)
    decreases |script|
  {
    IsBusy(s, w) && script != [] ==>
      if Answers(s.workers[w].phase) then script[0].outcome.applied
      else AnswerApplies(Leaves(s, w, script[0]), w, script[1..])
  }

  /** The handler ends, and is not cut off by the death of its process. */
  predicate EndsItself(s: State, w: nat, script: seq<Beat>)
    decreases |script|
  {
    IsBusy(s, w) ==> script != [] && EndsItself(Leaves(s, w, script[0]), w, script[1..])
  }

  predicate NoForeignRequeue(script: seq<Beat>, id: nat) {
    forall i :: 0 <= i < |script| ==> Requeue(id) !in script[i].others
  }

  /** What an answer makes of a message: gone, parked, or back in the jobs queue with one more requeue. */
  function AnsweredAs(m: Message, a: Answer): Message {
    match a
    case Acked => Message(m.body, m.header, Gone, m.requeues)
    case Rejected => Message(m.body, m.header, InDead, m.requeues)
    case Returned => Message(m.body, m.header, InJobs, m.requeues + 1)
    case Silent => m
  }

  /** A handler's own call: only an answer touches its message. */
  lemma OwnCall(s: State, w: nat, b: Beat)
    requires Delivered(s, w)
    ensures var h, t := s.workers[w], Next(s, OwnEvent(s.workers[w], w, b));
            && h.id < |t.msgs| && w < |t.workers|
            && (!Answers(h.phase) ==> t.msgs[h.id] == s.msgs[h.id])
            && (h.phase.RejectPoison? && b.outcome.applied ==> t.msgs[h.id] == AnsweredAs(s.msgs[h.id], Rejected))
            && (h.phase.Nacking? && b.outcome.applied ==> t.msgs[h.id] == AnsweredAs(s.msgs[h.id], Returned))
            && ((h.phase.SkipAck? || h.phase.DoneAck? || h.phase.HandledAck?) && b.outcome.applied ==>
                  t.msgs[h.id] == AnsweredAs(s.msgs[h.id], Acked))
            && (h.phase.RejectPoison? || h.phase.SkipAck? || h.phase.Nacking? ==> t.workers[w].Idle?)
  {
  }

  lemma StillDelivered(s: State, w: nat, b: Beat)
    requires Delivered(s, w) && !Answers(s.workers[w].phase)
    requires Next(s, OwnEvent(s.workers[w], w, b)).workers[w].Busy?
    ensures Delivered(Next(s, OwnEvent(s.workers[w], w, b)), w)
    ensures Next(s, OwnEvent(s.workers[w], w, b)).workers[w].id == s.workers[w].id
  {
    WfNext(s, OwnEvent(s.workers[w], w, b));
    TagsDistinctNext(s, OwnEvent(s.workers[w], w, b));
    OwnCall(s, w, b);
    OwnKeepsTag(s, w, b);
  }

  lemma OwnKeepsTag(s: State, w: nat, b: Beat)
    requires Handles(s, w)
    ensures var h, t := s.workers[w], Next(s, OwnEvent(s.workers[w], w, b));
            && w < |t.workers|
            && (t.workers[w].Busy? ==> Handles(t, w) && t.workers[w].id == h.id && t.workers[w].tag == h.tag)
  {
    if !s.workers[w].phase.Running? { HandlerAfter(s, w, b); }
  }

  /** The first answer decides what becomes of the message; later ones carry a stale tag. */
  lemma {:induction false} AnswerLands(s: State, w: nat, script: seq<Beat>)
    requires Delivered(s, w) && EndsItself(s, w, script) && AnswerApplies(s, w, script)
    requires NoForeignRequeue(script, s.workers[w].id)
    ensures var id, r := s.workers[w].id, Drive(s, w, script);
            id < |r.msgs| && r.msgs[id] == AnsweredAs(s.msgs[id], FirstAnswer(s, w, script))
    decreases |script|
  {
    var id := s.workers[w].id;
    TraceStep(s, w, script);
    ForeignKeepsDelivery(s, script[0].others, w);
    var met, next := MeetsAt(s, w, script[0]), Leaves(s, w, script[0]);
    OwnCall(met, w, script[0]);
    OwnKeepsTag(met, w, script[0]);
    if Answers(s.workers[w].phase) {
      if next.workers[w].Busy? {
        var es := DriveIsRun(next, w, script[1..]);
        SettledStays(next, es, id);
      }
    } else if next.workers[w].Busy? {
      StillDelivered(met, w, script[0]);
      AnswerLands(next, w, script[1..]);
    }
  }

  /* ---------- which answer it is ---------- */

  /** After a failure: back to the jobs queue if the publish or the outcome write raised, else acknowledged. */
  function FailureAnswer(script: seq<Beat>): Answer {
    if |script| < 2 then Silent
    else if script[0].outcome.raised || script[1].outcome.raised then Returned
    else Acked
  }

  /** From `mark_processing` on: acknowledged after the commit, or as the failure goes. */
  function AttemptAnswer(script: seq<Beat>): Answer {
    if |script| < 3 then Silent
    else if script[0].outcome.raised then FailureAnswer(script[1..])
    else if script[1].result.None? then FailureAnswer(script[2..])
    else if script[2].outcome.raised then FailureAnswer(script[3..])
    else Acked
  }

  /** From the delivery on, by what the handler reads and how its calls end. */
  function ExpectedAnswer(s: State, w: nat, script: seq<Beat>): Answer
    requires IsBusy(s, w)
  {
    var h := s.workers[w];
    if h.body.Malformed? then Rejected
    else if script == [] then Silent
    else if script[0].outcome.raised then Returned
    else
      var rows := MeetsAt(s, w, script[0]).rows;
      if h.body.job !in rows then Rejected
      else if rows[h.body.job].status == Completed then Acked
      else AttemptAnswer(script[1..])
  }

  /** A handler on the ladder. */
  ghost predicate OnLadder(s: State, w: nat) {
    Handles(s, w) && s.workers[w].body.JobBody? && LadderHeader(s.workers[w].header)
  }

  lemma StepOnLadder(s: State, w: nat, script: seq<Beat>)
    requires OnLadder(s, w) && script != []
    ensures var met, next := MeetsAt(s, w, script[0]), Leaves(s, w, script[0]);
            && OnLadder(met, w) && met.workers[w] == s.workers[w]
            && w < |next.workers| && (next.workers[w].Busy? ==> OnLadder(next, w))
            && (!s.workers[w].phase.Running? ==>
                  var o := script[0].outcome;
                  var o := if AwaitsConfirmation(s.workers[w].phase) then Confirm(o) else o;
                  next.workers[w] == Resumes(met.rows, s.workers[w], o, script[0].error))
            && (s.workers[w].phase.Running? ==>
                  next.workers[w] == s.workers[w].(phase := if script[0].result.Some?
                                                            then Completing(script[0].result.value)
                                                            else Publishing(script[0].error)))
  {
    TraceStep(s, w, script);
    var met := MeetsAt(s, w, script[0]);
    OwnKeepsTag(met, w, script[0]);
    if !s.workers[w].phase.Running? { HandlerAfter(met, w, script[0]); }
    OwnHeader(met, w, script[0]);
  }

  lemma OwnHeader(s: State, w: nat, b: Beat)
    requires Handles(s, w)
    ensures var h, t := s.workers[w], Next(s, OwnEvent(s.workers[w], w, b));
            && w < |t.workers|
            && (t.workers[w].Busy? ==> t.workers[w].header == h.header && t.workers[w].body == h.body)
            && (h.phase.Running? ==>
                  t.workers[w] == h.(phase := if b.result.Some? then Completing(b.result.value)
                                              else Publishing(b.error)))
  {
  }

  lemma OutcomeAnswers(s: State, w: nat, script: seq<Beat>)
    requires OnLadder(s, w) && EndsItself(s, w, script)
    requires s.workers[w].phase.Recording? || s.workers[w].phase.Burying?
    ensures |script| >= 1
    ensures FirstAnswer(s, w, script) == if script[0].outcome.raised then Returned else Acked
  {
    StepOnLadder(s, w, script);
  }

  /** The handler stands after its publish: at the outcome write, or at the nack. */
  lemma AfterPublish(rows: map<JobId, Row>, h: Handler, o: Outcome, err: string)
    requires h.Busy? && h.phase.Publishing? && h.body.JobBody? && LadderHeader(h.header)
    ensures var r := Resumes(rows, h, o, err);
            && r.Busy?
            && (if o.raised then r.phase.Nacking? else r.phase.Recording? || r.phase.Burying?)
  {
    LadderDescends(h.header);
  }

  lemma FailureAnswers(s: State, w: nat, script: seq<Beat>)
    requires OnLadder(s, w) && s.workers[w].phase.Publishing? && EndsItself(s, w, script)
    ensures FirstAnswer(s, w, script) == FailureAnswer(script) != Silent
  {
    StepOnLadder(s, w, script);
    AfterPublish(MeetsAt(s, w, script[0]).rows, s.workers[w], Confirm(script[0].outcome), script[0].error);
    if !script[0].outcome.raised { OutcomeAnswers(Leaves(s, w, script[0]), w, script[1..]); }
  }

  lemma AttemptAnswers(s: State, w: nat, script: seq<Beat>)
    requires OnLadder(s, w) && s.workers[w].phase.Begin? && EndsItself(s, w, script)
    ensures FirstAnswer(s, w, script) == AttemptAnswer(script) != Silent
  {
    StepOnLadder(s, w, script);
    var s1 := Leaves(s, w, script[0]);
    if script[0].outcome.raised {
      FailureAnswers(s1, w, script[1..]);
    } else {
      StepOnLadder(s1, w, script[1..]);
      var s2 := Leaves(s1, w, script[1]);
      if script[1].result.None? {
        FailureAnswers(s2, w, script[2..]);
      } else {
        CommitAnswers(s2, w, script[2..]);
      }
    }
  }

  lemma CommitAnswers(s: State, w: nat, script: seq<Beat>)
    requires OnLadder(s, w) && s.workers[w].phase.Completing? && EndsItself(s, w, script)
    ensures |script| >= 2
    ensures FirstAnswer(s, w, script) != Silent
    ensures FirstAnswer(s, w, script) == if script[0].outcome.raised then FailureAnswer(script[1..]) else Acked
  {
    StepOnLadder(s, w, script);
    if script[0].outcome.raised { FailureAnswers(Leaves(s, w, script[0]), w, script[1..]); }
  }

  lemma ReadAnswers(s: State, w: nat, script: seq<Beat>)
    requires OnLadder(s, w) && s.workers[w].phase.Received? && EndsItself(s, w, script)
    ensures FirstAnswer(s, w, script) == ExpectedAnswer(s, w, script) != Silent
  {
    StepOnLadder(s, w, script);
    var next := Leaves(s, w, script[0]);
    if next.workers[w].phase.Begin? { AttemptAnswers(next, w, script[1..]); }
  }

  /**
    * Every delivery is answered.  A handler that ends by itself, whose answer takes effect and
    * whose message nobody else takes back, leaves it: parked if it was malformed or its job
    * unknown; in the jobs queue with one more requeue if the status could not be read, or if a
    * publish or an outcome write raised; acknowledged otherwise, also if the job was already
    * completed.  In particular it never leaves it unacknowledged.
    */
  lemma HandlerAnswers(s: State, w: nat, script: seq<Beat>)
    requires Delivered(s, w) && s.workers[w].phase == Start(s.workers[w].body)
    requires EndsItself(s, w, script) && AnswerApplies(s, w, script)
    requires NoForeignRequeue(script, s.workers[w].id)
    ensures var id, r := s.workers[w].id, Drive(s, w, script);
            && id < |r.msgs| && r.msgs[id] == AnsweredAs(s.msgs[id], ExpectedAnswer(s, w, script))
            && !r.msgs[id].place.Unacked?
  {
    AnswerLands(s, w, script);
    if s.workers[w].body.JobBody? {
      ReadAnswers(s, w, script);
    }
  }

  /** Nine awaits are always enough to end. */
  lemma {:induction false} LongEnoughEnds(s: State, w: nat, script: seq<Beat>)
    requires Handles(s, w) && |script| >= AwaitsLeft(s.workers[w].phase)
    ensures EndsItself(s, w, script)
    decreases |script|
  {
    TraceStep(s, w, script);
    var met, next := MeetsAt(s, w, script[0]), Leaves(s, w, script[0]);
    OwnEventAdvances(met, w, script[0]);
    if IsBusy(next, w) { LongEnoughEnds(next, w, script[1..]); }
  }

  /** The state right after a delivery, in any run. */
  lemma DeliveryIsDelivered(n: nat, es: seq<Event>, w: nat, m: nat)
    requires Enabled(Run(Init(n), es), Deliver(w, m))
    ensures var d := Next(Run(Init(n), es), Deliver(w, m));
            Delivered(d, w) && d.workers[w].phase == Start(d.workers[w].body) && d.workers[w].id == m
  {
    var s := Run(Init(n), es);
    WfAlways(n, es);
    TagsDistinctAlways(n, es);
    WfNext(s, Deliver(w, m));
    TagsDistinctNext(s, Deliver(w, m));
  }
}

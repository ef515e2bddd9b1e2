/**
  * The consumer of `run`: one delivery at a time, each handled to the end before the
  * next, and every guarantee about runs holds afterwards.
  */
module Consumer {
  import opened Domain
  import opened Protocol
  import opened Guarantees
  import opened Cluster
  import opened WorkerProcess
  import opened Wellformed
  import opened Parking
  import opened Answering

  /** What happens before the next delivery, which message it is, and how its handler fares. */
  datatype Shift = Shift(before: seq<Event>, message: nat, script: seq<Beat>)

  predicate Waiting(s: State, m: nat) {
    m < |s.msgs| && s.msgs[m].place == InJobs
  }

  function WorkShift(s: State, w: nat, shift: Shift): State {
    var s1 := Run(s, Foreign(shift.before, w));
    if Waiting(s1, shift.message) then Drive(Next(s1, Deliver(w, shift.message)), w, shift.script) else s1
  }

  function WorkShifts(s: State, w: nat, shifts: seq<Shift>): State {
    if shifts == [] then s else WorkShift(WorkShifts(s, w, shifts[..|shifts| - 1]), w, shifts[|shifts| - 1])
  }

  predicate IsFree(s: State, w: nat) {
    w < |s.workers| && s.workers[w].Idle?
  }

  lemma OthersKeepFree(s: State, e: Event, w: nat)
    requires IsFree(s, w) && ByOthers(e, w)
    ensures IsFree(Next(s, e), w)
  {
  }

  lemma {:induction false} ForeignKeepsFree(s: State, es: seq<Event>, w: nat)
    requires IsFree(s, w)
    ensures IsFree(Run(s, Foreign(es, w)), w)
  {
    if es != [] {
      var fs, e := Foreign(es[..|es| - 1], w), es[|es| - 1];
      ForeignKeepsFree(s, es[..|es| - 1], w);
      if ByOthers(e, w) {
        RunSnoc(s, fs, e);
        OthersKeepFree(Run(s, fs), e, w);
      }
    }
  }

  /** A handler leaves its worker free, by ending or by dying with its process. */
  lemma {:induction false} DriveFrees(s: State, w: nat, script: seq<Beat>)
    requires IsBusy(s, w) && (s.workers[w].phase.RejectPoison? || s.workers[w].body.JobBody?)
    ensures IsFree(Drive(s, w, script), w)
    decreases |script|
  {
    if script != [] {
      var s1 := Run(s, Foreign(script[0].others, w));
      ForeignKeepsHandler(s, script[0].others, w);
      OwnEventAdvances(s1, w, script[0]);
      var t := Next(s1, OwnEvent(s1.workers[w], w, script[0]));
      if t.workers[w].Busy? {
        DriveFrees(t, w, script[1..]);
      }
    }
  }

  lemma DeliveredIsBusy(s: State, w: nat, m: nat)
    requires IsFree(s, w) && Waiting(s, m)
    ensures var t := Next(s, Deliver(w, m));
            IsBusy(t, w) && t.workers[w].phase == Start(t.workers[w].body)
  {
  }

  /* ---------- what is delivered ---------- */

  /** The messages that a run of events hands to worker w, in order. */
  function DeliveredTo(s: State, es: seq<Event>, w: nat): seq<nat> {
    if es == [] then []
    else
      var before, e := es[..|es| - 1], es[|es| - 1];
      DeliveredTo(s, before, w)
      + (if e.Deliver? && e.w == w && Enabled(Run(s, before), e) then [e.m] else [])
  }

  lemma DeliveredSnoc(s: State, es: seq<Event>, e: Event, w: nat)
    ensures DeliveredTo(s, es + [e], w)
         == DeliveredTo(s, es, w) + (if e.Deliver? && e.w == w && Enabled(Run(s, es), e) then [e.m] else [])
  {
    assert (es + [e])[..|es|] == es;
  }

  lemma {:induction false} DeliveredConcat(s: State, a: seq<Event>, b: seq<Event>, w: nat)
    ensures DeliveredTo(s, a + b, w) == DeliveredTo(s, a, w) + DeliveredTo(Run(s, a), b, w)
    decreases |b|
  {
    if b == [] {
      assert a + b == a;
    } else {
      var c, x := b[..|b| - 1], b[|b| - 1];
      assert b == c + [x] && a + b == (a + c) + [x];
      DeliveredConcat(s, a, c, w);
      RunConcat(s, a, c);
      DeliveredSnoc(s, a + c, x, w);
      DeliveredSnoc(Run(s, a), c, x, w);
    }
  }

  lemma {:induction false} NoneDelivered(s: State, es: seq<Event>, w: nat)
    requires forall i :: 0 <= i < |es| ==> !(es[i].Deliver? && es[i].w == w)
    ensures DeliveredTo(s, es, w) == []
  {
    if es != [] { NoneDelivered(s, es[..|es| - 1], w); }
  }

  lemma {:induction false} ForeignDeliversNone(es: seq<Event>, w: nat)
    ensures forall i :: 0 <= i < |Foreign(es, w)| ==> !(Foreign(es, w)[i].Deliver? && Foreign(es, w)[i].w == w)
  {
    if es != [] { ForeignDeliversNone(es[..|es| - 1], w); }
  }

  /** A handler runs without any further delivery to its worker: one message at a time. */
  lemma {:induction false} DriveDeliversNone(s: State, w: nat, script: seq<Beat>) returns (es: seq<Event>)
    ensures Drive(s, w, script) == Run(s, es)
    ensures forall i :: 0 <= i < |es| ==> !(es[i].Deliver? && es[i].w == w)
    decreases |script|
  {
    if w >= |s.workers| || s.workers[w].Idle? {
      es := [];
    } else if script == [] {
      es := [] + [Crash(w)];
      RunSnoc(s, [], Crash(w));
    } else {
      var fs, e := Foreign(script[0].others, w), OwnEvent(s.workers[w], w, script[0]);
      ForeignDeliversNone(script[0].others, w);
      RunSnoc(s, fs, e);
      var more := DriveDeliversNone(Run(s, fs + [e]), w, script[1..]);
      RunConcat(s, fs + [e], more);
      es := fs + [e] + more;
    }
  }

  /** The shifts whose message waits when they are reached, in order. */
  function Taken(s: State, w: nat, shifts: seq<Shift>): seq<nat> {
    if shifts == [] then []
    else
      var before, shift := shifts[..|shifts| - 1], shifts[|shifts| - 1];
      var reached := Run(WorkShifts(s, w, before), Foreign(shift.before, w));
      Taken(s, w, before) + (if Waiting(reached, shift.message) then [shift.message] else [])
  }

  lemma {:induction false} ShiftsKeepFree(s: State, w: nat, shifts: seq<Shift>)
    requires IsFree(s, w)
    ensures IsFree(WorkShifts(s, w, shifts), w)
  {
    if shifts != [] {
      var shift := shifts[|shifts| - 1];
      ShiftsKeepFree(s, w, shifts[..|shifts| - 1]);
      var s0 := WorkShifts(s, w, shifts[..|shifts| - 1]);
      ForeignKeepsFree(s0, shift.before, w);
      var s1 := Run(s0, Foreign(shift.before, w));
      if Waiting(s1, shift.message) {
        DeliveredIsBusy(s1, w, shift.message);
        DriveFrees(Next(s1, Deliver(w, shift.message)), w, shift.script);
      }
    }
  }

  /**
    * Whatever a free worker does amid interference is a run of the transition system in which
    * exactly the messages that wait when their shift is reached are delivered to it, once each
    * and in order.
    */
  lemma {:induction false} ShiftsAreRun(s: State, w: nat, shifts: seq<Shift>) returns (es: seq<Event>)
    requires IsFree(s, w)
    ensures WorkShifts(s, w, shifts) == Run(s, es)
    ensures DeliveredTo(s, es, w) == Taken(s, w, shifts)
  {
    if shifts == [] {
      es := [];
    } else {
      var shift := shifts[|shifts| - 1];
      es := ShiftsAreRun(s, w, shifts[..|shifts| - 1]);
      ShiftsKeepFree(s, w, shifts[..|shifts| - 1]);
      var s0 := Run(s, es);
      var fs := Foreign(shift.before, w);
      ForeignKeepsFree(s0, shift.before, w);
      ForeignDeliversNone(shift.before, w);
      NoneDelivered(s0, fs, w);
      RunConcat(s, es, fs);
      DeliveredConcat(s, es, fs, w);
      es := es + fs;
      var s1 := Run(s, es);
      if Waiting(s1, shift.message) {
        RunSnoc(s, es, Deliver(w, shift.message));
        DeliveredSnoc(s, es, Deliver(w, shift.message), w);
        es := es + [Deliver(w, shift.message)];
        var more := DriveDeliversNone(Run(s, es), w, shift.script);
        NoneDelivered(Run(s, es), more, w);
        RunConcat(s, es, more);
        DeliveredConcat(s, es, more, w);
        es := es + more;
      }
    }
  }

  /* ---------- what becomes of it ---------- */

  /** A message of a known, unfinished job waits in the jobs queue. */
  predicate Ready(s: State, m: nat) {
    && Waiting(s, m) && s.msgs[m].body.JobBody? && s.msgs[m].body.job in s.rows
    && s.rows[s.msgs[m].body.job].status != Completed
  }

  /** The job is completed with the transcript, its message acknowledged, everything else as before. */
  ghost predicate Done(s: State, r: State, m: nat, t: Transcript)
    requires Ready(s, m)
  {
    var j := s.msgs[m].body.job;
    && r.rows.Keys == s.rows.Keys && (forall k :: k in s.rows && k != j ==> r.rows[k] == s.rows[k])
    && CompletedOnce(s.rows[j], r.rows[j], t)
    && |r.msgs| == |s.msgs| && r.msgs[m].place == Gone
    && (forall i :: 0 <= i < |s.msgs| && i != m ==> r.msgs[i] == s.msgs[i])
    && r.workers == s.workers && r.tags == s.tags + 1
  }

  /** One undisturbed shift completes the job whose message waits. */
  lemma ShiftCompletes(s: State, w: nat, m: nat, t: Transcript)
    requires IsFree(s, w) && Ready(s, m)
    ensures Done(s, WorkShifts(s, w, [Shift([], m, Success(t))]), m, t)
  {
    var shifts := [Shift([], m, Success(t))];
    assert shifts[..0] == [] && Foreign([], w) == [];
    AnyHeaderCompletes(s, w, m, t);
    assert WorkShifts(s, w, shifts) == WorkShift(s, w, shifts[0]);
  }

  /** A delivered message is answered by the end of its shift, however the shift goes. */
  lemma ShiftAnswers(n: nat, s: State, w: nat, shift: Shift)
    requires Reachable(n, s) && IsFree(s, w) && Waiting(Run(s, Foreign(shift.before, w)), shift.message)
    requires var d := Next(Run(s, Foreign(shift.before, w)), Deliver(w, shift.message));
             && EndsItself(d, w, shift.script) && AnswerApplies(d, w, shift.script)
             && NoForeignRequeue(shift.script, shift.message)
    ensures var r := WorkShifts(s, w, [shift]);
            && shift.message < |r.msgs| && !r.msgs[shift.message].place.Unacked? && IsFree(r, w)
            && r.tags > Run(s, Foreign(shift.before, w)).tags
  {
    var s1 := Run(s, Foreign(shift.before, w));
    RunReachable(n, s, Foreign(shift.before, w));
    var es :| s1 == Run(Init(n), es);
    ForeignKeepsFree(s, shift.before, w);
    DeliveryIsDelivered(n, es, w, shift.message);
    var d := Next(s1, Deliver(w, shift.message));
    HandlerAnswers(d, w, shift.script);
    DriveFrees(d, w, shift.script);
    var more := DriveIsRun(d, w, shift.script);
    TagsGrow(d, more);
    assert [shift][..0] == [] && WorkShifts(s, w, [shift]) == WorkShift(s, w, shift);
  }

  lemma {:induction false} TagsGrow(s: State, es: seq<Event>)
    ensures Run(s, es).tags >= s.tags
  {
    if es != [] { TagsGrow(s, es[..|es| - 1]); }
  }

  /** guarded_handler under the in-flight lock, for as many deliveries as there are. */
  method Consume(sys: System, w: nat, shifts: seq<Shift>)
    requires IsFree(sys.View(), w)
    modifies sys, sys.db, sys.broker, sys.storage
    ensures sys.View() == WorkShifts(old(sys.View()), w, shifts) && IsFree(sys.View(), w)
    ensures Keeps(old(sys.View()), sys.View())
    ensures forall m, t :: shifts == [Shift([], m, Success(t))] && Ready(old(sys.View()), m) ==>
              Done(old(sys.View()), sys.View(), m, t)
  {
    ghost var start := sys.View();
    for i := 0 to |shifts|
      invariant sys.View() == WorkShifts(old(sys.View()), w, shifts[..i])
      invariant IsFree(sys.View(), w)
    {
      var shift := shifts[i];
      assert shifts[..i + 1][..i] == shifts[..i];
      ForeignKeepsFree(sys.View(), shift.before, w);
      sys.Others(Foreign(shift.before, w));
      var m := shift.message;
      if m < |sys.broker.msgs| && sys.broker.msgs[m].place == InJobs {
        ghost var s1 := sys.View();
        DeliveredIsBusy(s1, w, m);
        RunSnoc(s1, [], Deliver(w, m));
        assert [] + [Deliver(w, m)] == [Deliver(w, m)];
        sys.Others([Deliver(w, m)]);
        DriveFrees(sys.View(), w, shift.script);
        HandleMessage(sys, w, shift.script);
      }
    }
    assert shifts[..|shifts|] == shifts;
    ghost var es := ShiftsAreRun(start, w, shifts);
    RunKeeps(start, es);
    forall m, t | shifts == [Shift([], m, Success(t))] && Ready(start, m) ensures Done(start, sys.View(), m, t) {
      ShiftCompletes(start, w, m, t);
    }
  }
}

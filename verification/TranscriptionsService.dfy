/** `create` in its own form, against every schedule, proved to follow the transition system. */
module TranscriptionsService {
  import opened Domain
  import opened Retry
  import opened Protocol
  import opened Cluster
  import opened Guarantees
  import opened Uploads

  /** What the client gets: 202, 200, 415, 503, another error, or no answer from a killed process. */
  datatype Reply = Queued(job: JobId) | Deduplicated(job: JobId) | Unsupported | Unavailable | Raised | Killed

  /** Everything but the steps of this upload's own request. */
  predicate ByOthers(e: Event, u: JobId) {
    match e
    case Serve(v, _, _) => v != u
    case ServerCrash(v) => v != u
    case _ => true
  }

  function Foreign(es: seq<Event>, u: JobId): seq<Event> {
    if es == [] then []
    else if ByOthers(es[|es| - 1], u) then Foreign(es[..|es| - 1], u) + [es[|es| - 1]]
    else Foreign(es[..|es| - 1], u)
  }

  /** Reading or renaming a file that a purge removed raises; so does a lookup that cannot be answered truthfully. */
  function Fate(s: State, u: JobId, b: Beat): Outcome
    requires u < |s.uploads|
  {
    var up := s.uploads[u];
    match up.phase
    case Arrived => if up.valid && Temp(u) !in s.files then Outcome(false, true) else b.outcome
    case Hashed => if ServeEnabled(s, u, Outcome(false, false), b.found) then b.outcome else Outcome(false, true)
    case Missed => if Temp(u) in s.files then Confirm(b.outcome) else Outcome(false, true)
    case Promoted => Confirm(b.outcome)
    case Saved => Confirm(b.outcome)
    case Undoing => Confirm(b.outcome)
    case _ => b.outcome
  }

  function OwnEvent(s: State, u: JobId, b: Beat): Event
    requires u < |s.uploads|
  {
    Serve(u, Fate(s, u, b), b.found)
  }

  predicate Finished(p: UploadPhase) {
    p.Accepted? || p.Deduplicated? || p.Aborted?
  }

  /** The request, one beat for each await; when the beats run out the process dies. */
  function Drive(s: State, u: JobId, script: seq<Beat>): State
    decreases |script|
  {
    if u >= |s.uploads| || Finished(s.uploads[u].phase) then s
    else if script == [] then Next(s, ServerCrash(u))
    else
      var s1 := Run(s, Foreign(script[0].others, u));
      if u >= |s1.uploads| then s1 else Drive(Next(s1, OwnEvent(s1, u, script[0])), u, script[1..])
  }

  lemma {:induction false} DriveIsRun(s: State, u: JobId, script: seq<Beat>) returns (es: seq<Event>)
    ensures Drive(s, u, script) == Run(s, es)
    decreases |script|
  {
    if u >= |s.uploads| || Finished(s.uploads[u].phase) {
      es := [];
    } else if script == [] {
      es := [] + [ServerCrash(u)];
      RunSnoc(s, [], ServerCrash(u));
    } else {
      var fs := Foreign(script[0].others, u);
      var s1 := Run(s, fs);
      if u >= |s1.uploads| {
        es := fs;
      } else {
        var e := OwnEvent(s1, u, script[0]);
        RunSnoc(s, fs, e);
        var more := DriveIsRun(Run(s, fs + [e]), u, script[1..]);
        RunConcat(s, fs + [e], more);
        es := fs + [e] + more;
      }
    }
  }

  lemma OthersKeepUpload(s: State, e: Event, u: JobId)
    requires u < |s.uploads| && ByOthers(e, u)
    ensures u < |Next(s, e).uploads| && Next(s, e).uploads[u] == s.uploads[u]
  {
  }

  lemma {:induction false} ForeignKeepsUpload(s: State, es: seq<Event>, u: JobId)
    requires u < |s.uploads|
    ensures var t := Run(s, Foreign(es, u)); u < |t.uploads| && t.uploads[u] == s.uploads[u]
  {
    if es != [] {
      var fs, e := Foreign(es[..|es| - 1], u), es[|es| - 1];
      ForeignKeepsUpload(s, es[..|es| - 1], u);
      if ByOthers(e, u) {
        RunSnoc(s, fs, e);
        OthersKeepUpload(Run(s, fs), e, u);
      }
    }
  }

  predicate At(sys: System, u: JobId, p: UploadPhase)
    reads sys
  {
    u < |sys.uploads| && sys.uploads[u].phase == p
  }

  method Turn(sys: System, u: JobId, script: seq<Beat>) returns (alive: bool)
    requires u < |sys.uploads| && !Finished(sys.uploads[u].phase)
    modifies sys, sys.db, sys.broker, sys.storage
    ensures alive <==> script != []
    ensures !alive ==> sys.View() == Drive(old(sys.View()), u, script) && At(sys, u, Aborted)
    ensures alive ==>
              && sys.View() == Run(old(sys.View()), Foreign(script[0].others, u))
              && u < |sys.uploads| && sys.uploads[u] == old(sys.uploads[u])
  {
    alive := script != [];
    if alive {
      ForeignKeepsUpload(sys.View(), script[0].others, u);
      sys.Others(Foreign(script[0].others, u));
    } else {
      sys.uploads := sys.uploads[u := sys.uploads[u].(phase := UploadPhase.Aborted)];
      assert sys.View() == Next(old(sys.View()), ServerCrash(u));
    }
  }

  /* ---------- the calls of a request, and its reply ---------- */

  /** One awaited call: where the request stood and how the call ended. */
  datatype Awaited = Awaited(phase: UploadPhase, fate: Outcome)

  /** The calls the request makes, in order. */
  function Calls(s: State, u: JobId, script: seq<Beat>): seq<Awaited>
    decreases |script|
  {
    if u >= |s.uploads| || Finished(s.uploads[u].phase) || script == [] then []
    else
      var s1 := Run(s, Foreign(script[0].others, u));
      if u >= |s1.uploads| then []
      else
        [Awaited(s1.uploads[u].phase, Fate(s1, u, script[0]))]
        + Calls(Next(s1, OwnEvent(s1, u, script[0])), u, script[1..])
  }

  /** The process is killed before the request is finished. */
  predicate Dies(s: State, u: JobId, script: seq<Beat>)
    decreases |script|
  {
    && u < |s.uploads| && !Finished(s.uploads[u].phase)
    && (script == []
        || var s1 := Run(s, Foreign(script[0].others, u));
           u < |s1.uploads| && Dies(Next(s1, OwnEvent(s1, u, script[0])), u, script[1..]))
  }

  /** The answer, call by call: 202, 200, 415, 503, another error, or none. */
  function ReplyOf(s: State, u: JobId, script: seq<Beat>): Reply
    decreases |script|
  {
    if u >= |s.uploads| || script == [] then Killed
    else
      var s1 := Run(s, Foreign(script[0].others, u));
      if u >= |s1.uploads| then Killed
      else
        var fate, rest := Fate(s1, u, script[0]), ReplyOf(Next(s1, OwnEvent(s1, u, script[0])), u, script[1..]);
        match s1.uploads[u].phase
        case Arrived => if !s1.uploads[u].valid then Unsupported else if fate.raised then Raised else rest
        case Hashed => if fate.raised then Raised else rest
        case Hit(k) => Reply.Deduplicated(k)
        case Missed => if fate.raised then Raised else rest
        case Promoted => if fate.raised then Raised else rest
        case Saved => if fate.raised then rest else Reply.Queued(u)
        case Undoing => if fate.raised then Raised else rest
        case Unsaved => Unavailable
        case _ => Killed
  }

  /** One step of the three functions. */
  lemma CallStep(s: State, u: JobId, script: seq<Beat>)
    requires u < |s.uploads| && !Finished(s.uploads[u].phase) && script != []
    ensures var s1 := Run(s, Foreign(script[0].others, u));
            && u < |s1.uploads| && s1.uploads[u] == s.uploads[u]
            && var fate, next := Fate(s1, u, script[0]), Next(s1, OwnEvent(s1, u, script[0]));
               && u < |next.uploads|
               && next.uploads[u] == s.uploads[u].(phase := ServerResumes(s.uploads[u], fate, script[0].found))
               && Calls(s, u, script) == [Awaited(s.uploads[u].phase, fate)] + Calls(next, u, script[1..])
               && (Dies(s, u, script) <==> Dies(next, u, script[1..]))
  {
    ForeignKeepsUpload(s, script[0].others, u);
    OwnServes(Run(s, Foreign(script[0].others, u)), u, script[0]);
  }

  /** The request's own call is always possible with the fate it gets. */
  lemma OwnServes(s: State, u: JobId, b: Beat)
    requires u < |s.uploads| && !Finished(s.uploads[u].phase)
    ensures var next := Next(s, OwnEvent(s, u, b));
            && u < |next.uploads|
            && next.uploads[u] == s.uploads[u].(phase := ServerResumes(s.uploads[u], Fate(s, u, b), b.found))
  {
    assert ServeEnabled(s, u, Fate(s, u, b), b.found);
  }

  /** The rollback follows a raising publish, and the removal of the file a delete that returned. */
  lemma {:induction false} CallsFollow(s: State, u: JobId, script: seq<Beat>, i: nat)
    requires u < |s.uploads| && i < |Calls(s, u, script)|
    ensures var cs := Calls(s, u, script);
            && cs[0].phase == s.uploads[u].phase
            && (i > 0 && cs[i].phase.Undoing? ==> cs[i - 1].phase.Saved? && cs[i - 1].fate.raised)
            && (i > 0 && cs[i].phase.Unsaved? ==> cs[i - 1].phase.Undoing? && !cs[i - 1].fate.raised)
            && (i > 0 ==> !cs[i].phase.Arrived?)
    decreases |script|
  {
    CallStep(s, u, script);
    var s1 := Run(s, Foreign(script[0].others, u));
    var next := Next(s1, OwnEvent(s1, u, script[0]));
    if i > 0 { CallsFollow(next, u, script[1..], i - 1); }
  }

  function ReplyAfter(last: UploadPhase, valid: bool, u: JobId): Reply {
    match last
    case Arrived => if valid then Raised else Unsupported
    case Hit(k) => Reply.Deduplicated(k)
    case Saved => Reply.Queued(u)
    case Unsaved => Unavailable
    case _ => Raised
  }

  /** Calls after which the request is finished. */
  predicate Concludes(c: Awaited) {
    c.phase.Hit? || c.phase.Unsaved? || (c.phase.Saved? && !c.fate.raised)
  }

  /** What the last call says, for a given state and script. */
  ghost predicate LastCallSettles(s: State, u: JobId, script: seq<Beat>)
    requires u < |s.uploads|
  {
    var r, cs := ReplyOf(s, u, script), Calls(s, u, script);
    if Dies(s, u, script) then r == Killed && |cs| == |script| && (cs == [] || !Concludes(cs[|cs| - 1]))
    else
      && cs != []
      && var last := cs[|cs| - 1];
         r == ReplyAfter(last.phase, s.uploads[u].valid, u) && (last.phase.Saved? ==> !last.fate.raised)
  }

  /** A call that finishes the request is its last. */
  lemma FinishingCall(s: State, u: JobId, script: seq<Beat>)
    requires u < |s.uploads| && !Finished(s.uploads[u].phase) && script != []
    requires var s1 := Run(s, Foreign(script[0].others, u));
             u < |s1.uploads| ==> Finished(Next(s1, OwnEvent(s1, u, script[0])).uploads[u].phase)
    ensures LastCallSettles(s, u, script)
  {
    CallStep(s, u, script);
  }

  /** The reply is settled by whether the process survives and by the last call. */
  lemma {:induction false} LastCallReplies(s: State, u: JobId, script: seq<Beat>)
    requires u < |s.uploads| && !Finished(s.uploads[u].phase)
    ensures LastCallSettles(s, u, script)
    decreases |script|
  {
    if script != [] {
      CallStep(s, u, script);
      var s1 := Run(s, Foreign(script[0].others, u));
      var next := Next(s1, OwnEvent(s1, u, script[0]));
      if Finished(next.uploads[u].phase) {
        FinishingCall(s, u, script);
      } else {
        LastCallReplies(next, u, script[1..]);
        ReplyGoesOn(s, u, script);
        if !Dies(next, u, script[1..]) {
          var cs := Calls(next, u, script[1..]);
          CallsFollow(next, u, script[1..], |cs| - 1);
          NeverArrivesAgain(s, u, script);
        }
      }
    }
  }

  /** Which calls leave a request unfinished. */
  lemma GoesOn(up: Upload, o: Outcome, found: Option<JobId>)
    requires !Finished(up.phase) && !Finished(ServerResumes(up, o, found))
    ensures !up.phase.Hit? && !up.phase.Unsaved? && (up.phase.Saved? <==> o.raised) && (up.phase.Arrived? ==> up.valid)
  {
  }

  /** An unfinished request is answered by what comes after. */
  lemma ReplyGoesOn(s: State, u: JobId, script: seq<Beat>)
    requires u < |s.uploads| && !Finished(s.uploads[u].phase) && script != []
    requires var s1 := Run(s, Foreign(script[0].others, u));
             u < |s1.uploads| ==> u < |Next(s1, OwnEvent(s1, u, script[0])).uploads|
                                  && !Finished(Next(s1, OwnEvent(s1, u, script[0])).uploads[u].phase)
    ensures var s1 := Run(s, Foreign(script[0].others, u));
            && u < |s1.uploads|
            && ReplyOf(s, u, script) == ReplyOf(Next(s1, OwnEvent(s1, u, script[0])), u, script[1..])
            && !Concludes(Calls(s, u, script)[0])
  {
    CallStep(s, u, script);
    GoesOn(s.uploads[u], Fate(Run(s, Foreign(script[0].others, u)), u, script[0]), script[0].found);
  }

  lemma NeverArrivesAgain(s: State, u: JobId, script: seq<Beat>)
    requires u < |s.uploads| && !Finished(s.uploads[u].phase) && script != []
    ensures var s1 := Run(s, Foreign(script[0].others, u));
            && u < |s1.uploads|
            && var next := Next(s1, OwnEvent(s1, u, script[0]));
               u < |next.uploads| && !next.uploads[u].phase.Arrived? && next.uploads[u].valid == s.uploads[u].valid
  {
    CallStep(s, u, script);
  }

  lemma InvalidStops(s: State, u: JobId, script: seq<Beat>)
    requires u < |s.uploads| && s.uploads[u].phase.Arrived? && !s.uploads[u].valid && script != []
    ensures ReplyOf(s, u, script) == Unsupported && |Calls(s, u, script)| == 1 && !Dies(s, u, script)
  {
    CallStep(s, u, script);
  }

  /** The rollback is the last thing a request does, after the publish and the delete. */
  lemma RollbackTail(s: State, u: JobId, script: seq<Beat>)
    requires u < |s.uploads| && s.uploads[u].phase.Arrived? && Calls(s, u, script) != []
    ensures var cs := Calls(s, u, script);
            var n := |cs|;
            && (cs[n - 1].phase.Arrived? ==> n == 1)
            && (cs[n - 1].phase.Unsaved? ==>
                  && n >= 3 && cs[n - 3].phase.Saved? && cs[n - 3].fate.raised
                  && cs[n - 2].phase.Undoing? && !cs[n - 2].fate.raised)
  {
    var n := |Calls(s, u, script)|;
    CallsFollow(s, u, script, n - 1);
    if n > 1 { CallsFollow(s, u, script, n - 2); }
  }

  /**
    * What the client is told, exactly: nothing if the process died; 415 if it survived and the
    * upload is invalid; 202 if the publish returned; 503 if the publish raised, the delete of the
    * row returned and the removal of the file was made; 200 if the lookup hit.
    */
  lemma CreateReplies(s: State, u: JobId, script: seq<Beat>)
    requires u < |s.uploads| && s.uploads[u].phase.Arrived?
    ensures var r, cs := ReplyOf(s, u, script), Calls(s, u, script);
            var n := |cs|;
            && (r == Killed <==> Dies(s, u, script))
            && (r == Unsupported <==> !s.uploads[u].valid && script != [])
            && (r == Reply.Queued(u) <==> n >= 1 && cs[n - 1].phase.Saved? && !cs[n - 1].fate.raised)
            && (r == Unavailable <==>
                  && n >= 3 && cs[n - 3].phase.Saved? && cs[n - 3].fate.raised
                  && cs[n - 2].phase.Undoing? && !cs[n - 2].fate.raised && cs[n - 1].phase.Unsaved?)
            && (r.Deduplicated? <==> n >= 1 && cs[n - 1].phase.Hit?)
            && (r.Deduplicated? ==> cs[n - 1].phase == Hit(r.job))
  {
    LastCallReplies(s, u, script);
    if !s.uploads[u].valid && script != [] { InvalidStops(s, u, script); }
    if Calls(s, u, script) != [] { RollbackTail(s, u, script); }
  }

  /** A rejected upload leaves no row and no message, and no temp file if its removal took effect. */
  lemma RejectedLeavesNothing(n: nat, s: State, u: JobId, script: seq<Beat>)
    requires Reachable(n, s) && u < |s.uploads| && s.uploads[u].phase.Arrived? && !s.uploads[u].valid && script != []
    ensures var r := Drive(s, u, script);
            && u < |r.uploads| && r.uploads[u].phase == Aborted
            && u !in r.rows && !HasMessage(r, u)
            && (script[0].outcome.applied ==> Temp(u) !in r.files)
  {
    CallStep(s, u, script);
    var s1 := Run(s, Foreign(script[0].others, u));
    var e := OwnEvent(s1, u, script[0]);
    assert Drive(s, u, script) == Next(s1, e);
    RunReachable(n, s, Foreign(script[0].others, u));
    RunSnoc(s1, [], e);
    RunReachable(n, s1, [] + [e]);
    ReachableGuaranteed(n, Next(s1, e));
  }

  /** The reply says where the request ended. */
  predicate ReplyFits(sys: System, u: JobId, r: Reply)
    reads sys
  {
    match r
    case Queued(j) => j == u && At(sys, u, Accepted)
    case Deduplicated(k) => At(sys, u, UploadPhase.Deduplicated(k))
    case _ => At(sys, u, Aborted)
  }

  method RemoveFile(sys: System, u: JobId, script: seq<Beat>) returns (r: Reply)
    requires At(sys, u, Unsaved)
    modifies sys, sys.db, sys.broker, sys.storage
    ensures sys.View() == Drive(old(sys.View()), u, script) && ReplyFits(sys, u, r)
    ensures r == ReplyOf(old(sys.View()), u, script)
  {
    var alive := Turn(sys, u, script);
    if !alive { return Killed; }
    ghost var s := sys.View();
    var up := sys.uploads[u];
    sys.storage.Remove(Final(u, up.ext), script[0].outcome);
    sys.uploads := sys.uploads[u := up.(phase := Aborted)];
    assert sys.View() == Next(s, OwnEvent(s, u, script[0]));
    return Unavailable;
  }

  /** The catch block: delete the row, then remove the file. */
  method Undo(sys: System, u: JobId, script: seq<Beat>) returns (r: Reply)
    requires At(sys, u, Undoing)
    modifies sys, sys.db, sys.broker, sys.storage
    ensures sys.View() == Drive(old(sys.View()), u, script) && ReplyFits(sys, u, r)
    ensures r == ReplyOf(old(sys.View()), u, script)
  {
    var alive := Turn(sys, u, script);
    if !alive { return Killed; }
    ghost var s := sys.View();
    var raised := sys.db.Delete(u, Confirm(script[0].outcome));
    sys.uploads := sys.uploads[u := sys.uploads[u].(phase := if raised then Aborted else Unsaved)];
    assert sys.View() == Next(s, OwnEvent(s, u, script[0]));
    if raised { return Raised; }
    r := RemoveFile(sys, u, script[1..]);
  }

  /** Publish, with the rollback if it raises. */
  method Enqueue(sys: System, u: JobId, script: seq<Beat>) returns (r: Reply)
    requires At(sys, u, Saved)
    modifies sys, sys.db, sys.broker, sys.storage
    ensures sys.View() == Drive(old(sys.View()), u, script) && ReplyFits(sys, u, r)
    ensures r == ReplyOf(old(sys.View()), u, script)
  {
    var alive := Turn(sys, u, script);
    if !alive { return Killed; }
    ghost var s := sys.View();
    var up := sys.uploads[u];
    var message := Message(JobBody(u, Final(u, up.ext)), Absent, InJobs, 0);
    var raised := sys.broker.Publish(message, Confirm(script[0].outcome));
    sys.uploads := sys.uploads[u := up.(phase := if raised then Undoing else Accepted)];
    assert sys.View() == Next(s, OwnEvent(s, u, script[0]));
    if raised {
      r := Undo(sys, u, script[1..]);
    } else {
      return Reply.Queued(u);
    }
  }

  /** Insert the row: before the message, so that the worker finds it. */
  method SaveRow(sys: System, u: JobId, script: seq<Beat>) returns (r: Reply)
    requires At(sys, u, Promoted)
    modifies sys, sys.db, sys.broker, sys.storage
    ensures sys.View() == Drive(old(sys.View()), u, script) && ReplyFits(sys, u, r)
    ensures r == ReplyOf(old(sys.View()), u, script)
  {
    var alive := Turn(sys, u, script);
    if !alive { return Killed; }
    ghost var s := sys.View();
    var up := sys.uploads[u];
    var raised := sys.db.Save(u, NewRow(up.hash, Final(u, up.ext)), Confirm(script[0].outcome));
    sys.uploads := sys.uploads[u := up.(phase := if raised then Aborted else Saved)];
    assert sys.View() == Next(s, OwnEvent(s, u, script[0]));
    if raised { return Raised; }
    r := Enqueue(sys, u, script[1..]);
  }

  method PromoteFile(sys: System, u: JobId, script: seq<Beat>) returns (r: Reply)
    requires At(sys, u, Missed)
    modifies sys, sys.db, sys.broker, sys.storage
    ensures sys.View() == Drive(old(sys.View()), u, script) && ReplyFits(sys, u, r)
    ensures r == ReplyOf(old(sys.View()), u, script)
  {
    var alive := Turn(sys, u, script);
    if !alive { return Killed; }
    ghost var s := sys.View();
    var up := sys.uploads[u];
    var fate := if Temp(u) in sys.storage.files then Confirm(script[0].outcome) else Outcome(false, true);
    var raised := sys.storage.Promote(Temp(u), Final(u, up.ext), fate);
    sys.uploads := sys.uploads[u := up.(phase := if raised then Aborted else Promoted)];
    assert sys.View() == Next(s, OwnEvent(s, u, script[0]));
    if raised { return Raised; }
    r := SaveRow(sys, u, script[1..]);
  }

  /** Remove the temp file of a duplicate and answer with the existing job. */
  method AnswerExisting(sys: System, u: JobId, k: JobId, script: seq<Beat>) returns (r: Reply)
    requires At(sys, u, Hit(k))
    modifies sys, sys.db, sys.broker, sys.storage
    ensures sys.View() == Drive(old(sys.View()), u, script) && ReplyFits(sys, u, r)
    ensures r == ReplyOf(old(sys.View()), u, script)
  {
    var alive := Turn(sys, u, script);
    if !alive { return Killed; }
    ghost var s := sys.View();
    sys.storage.Remove(Temp(u), script[0].outcome);
    sys.uploads := sys.uploads[u := sys.uploads[u].(phase := UploadPhase.Deduplicated(k))];
    assert sys.View() == Next(s, OwnEvent(s, u, script[0]));
    return Reply.Deduplicated(k);
  }

  /** The lookup by content hash among completed jobs. */
  method LookUp(sys: System, u: JobId, script: seq<Beat>) returns (r: Reply)
    requires At(sys, u, Hashed)
    modifies sys, sys.db, sys.broker, sys.storage
    ensures sys.View() == Drive(old(sys.View()), u, script) && ReplyFits(sys, u, r)
    ensures r == ReplyOf(old(sys.View()), u, script)
  {
    var alive := Turn(sys, u, script);
    if !alive { return Killed; }
    ghost var s := sys.View();
    var up := sys.uploads[u];
    var fate := Fate(sys.View(), u, script[0]);
    var raised, existing := sys.db.FindCompleted(up.hash, fate, script[0].found);
    sys.uploads := sys.uploads[u := up.(phase := if raised then Aborted
                                                 else if existing.Some? then Hit(existing.value) else Missed)];
    assert sys.View() == Next(s, OwnEvent(s, u, script[0]));
    if raised { return Raised; }
    if existing.Some? {
      r := AnswerExisting(sys, u, existing.value, script[1..]);
    } else {
      r := PromoteFile(sys, u, script[1..]);
    }
  }

  /** Validation of the upload, then sha256, which streams the file. */
  method ValidateAndHash(sys: System, u: JobId, script: seq<Beat>) returns (r: Reply)
    requires At(sys, u, Arrived)
    modifies sys, sys.db, sys.broker, sys.storage
    ensures sys.View() == Drive(old(sys.View()), u, script) && ReplyFits(sys, u, r)
    ensures r == ReplyOf(old(sys.View()), u, script)
  {
    var alive := Turn(sys, u, script);
    if !alive { return Killed; }
    ghost var s := sys.View();
    var up := sys.uploads[u];
    if !up.valid {
      sys.storage.Remove(Temp(u), script[0].outcome);
      sys.uploads := sys.uploads[u := up.(phase := Aborted)];
      assert sys.View() == Next(s, OwnEvent(s, u, script[0]));
      return Unsupported;
    }
    var raised := script[0].outcome.raised || Temp(u) !in sys.storage.files;
    sys.uploads := sys.uploads[u := up.(phase := if raised then Aborted else Hashed)];
    assert sys.View() == Next(s, OwnEvent(s, u, script[0]));
    if raised { return Raised; }
    r := LookUp(sys, u, script[1..]);
  }

  /** create: from the stored temp file to the reply, or to the death of the process. */
  method Create(sys: System, u: JobId, script: seq<Beat>) returns (r: Reply)
    requires At(sys, u, Arrived)
    modifies sys, sys.db, sys.broker, sys.storage
    ensures sys.View() == Drive(old(sys.View()), u, script) && ReplyFits(sys, u, r)
    ensures r == ReplyOf(old(sys.View()), u, script)
    ensures Keeps(old(sys.View()), sys.View())
  {
    ghost var start := sys.View();
    r := ValidateAndHash(sys, u, script);
    ghost var es := DriveIsRun(start, u, script);
    RunKeeps(start, es);
  }
}

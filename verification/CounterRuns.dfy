/** Concrete schedules that show which assumptions the single-worker results need. */
module CounterRuns {
  import opened Domain
  import opened Retry
  import opened Protocol
  import opened CompletedStable
  import opened NoStuck
  import opened FaultFree

  const FILE := Final(0, "mp3")
  const BODY := JobBody(0, FILE)
  const FIRST := NewRow("h", FILE)

  /** One accepted upload, and whatever its row, messages and workers have become. */
  function Snapshot(row: Row, msgs: seq<Message>, tags: nat, workers: seq<Handler>): State {
    State(map[0 := row], {FILE}, msgs, tags, workers, multiset{}, [Upload("h", "mp3", true, Accepted)])
  }

  /** The upload on its way: phase, row, file and message so far. */
  function Uploading(n: nat, phase: UploadPhase, rows: map<JobId, Row>, files: set<Path>, msgs: seq<Message>): State {
    State(rows, files, msgs, 0, seq(n, i => Idle), multiset{}, [Upload("h", "mp3", true, phase)])
  }

  /** `create` step by step: sha256, no completed job with this hash, rename, insert, confirmed publish. */
  function UploadEvents(): seq<Event> {
    [Arrive("h", "mp3", true)] + [Serve(0, FINE, None)] + [Serve(0, FINE, None)] + [Serve(0, FINE, None)]
    + [Serve(0, FINE, None)] + [Serve(0, FINE, None)]
  }

  lemma UploadSteps(n: nat)
    ensures Next(Init(n), Arrive("h", "mp3", true)) == Uploading(n, Arrived, map[], {Temp(0)}, [])
    ensures Next(Uploading(n, Arrived, map[], {Temp(0)}, []), Serve(0, FINE, None))
         == Uploading(n, Hashed, map[], {Temp(0)}, [])
    ensures Next(Uploading(n, Hashed, map[], {Temp(0)}, []), Serve(0, FINE, None))
         == Uploading(n, Missed, map[], {Temp(0)}, [])
  {
  }

  lemma UploadSteps'(n: nat)
    ensures Next(Uploading(n, Missed, map[], {Temp(0)}, []), Serve(0, FINE, None))
         == Uploading(n, Promoted, map[], {FILE}, [])
    ensures Next(Uploading(n, Promoted, map[], {FILE}, []), Serve(0, FINE, None))
         == Uploading(n, Saved, map[0 := FIRST], {FILE}, [])
    ensures Next(Uploading(n, Saved, map[0 := FIRST], {FILE}, []), Serve(0, FINE, None))
         == Uploading(n, Accepted, map[0 := FIRST], {FILE}, [Message(BODY, Absent, InJobs, 0)])
  {
    assert {Temp(0)} - {Temp(0)} + {FILE} == {FILE};
  }

  /* ---------- one handler step on a snapshot ---------- */

  function RowAfter(row: Row, h: Handler, o: Outcome): Row
    requires h.Busy? && h.body == BODY
  {
    if o.applied && Awaits(h).Exec? then Updated(row, Awaits(h).update) else row
  }

  function MsgsAfter(msgs: seq<Message>, h: Handler, o: Outcome): seq<Message>
    requires h.Busy? && h.body == BODY && h.id < |msgs|
  {
    if !o.applied then msgs
    else match Awaits(h)
      case Ack => if msgs[h.id].place == Unacked(h.tag) then msgs[h.id := msgs[h.id].(place := Gone)] else msgs
      case NackBack => if msgs[h.id].place == Unacked(h.tag) then msgs[h.id := Requeued(msgs[h.id])] else msgs
      case Publish(m) => msgs + [m]
      case _ => msgs
  }

  lemma SnapshotWork(row: Row, msgs: seq<Message>, tags: nat, workers: seq<Handler>, w: nat, o: Outcome, err: string)
    requires w < |workers| && workers[w].Busy? && workers[w].body == BODY && workers[w].id < |msgs|
    requires WorkEnabled(workers[w], o) && !workers[w].phase.RejectPoison?
    ensures var h := workers[w];
            Next(Snapshot(row, msgs, tags, workers), Work(w, o, err))
            == Snapshot(RowAfter(row, h, o), MsgsAfter(msgs, h, o), tags,
                        workers[w := Resumes(map[0 := row], h, o, err)])
  {
  }

  lemma SnapshotDeliver(row: Row, msgs: seq<Message>, tags: nat, workers: seq<Handler>, w: nat, m: nat)
    requires w < |workers| && workers[w].Idle? && m < |msgs| && msgs[m].place == InJobs && msgs[m].body == BODY
    ensures Next(Snapshot(row, msgs, tags, workers), Deliver(w, m))
         == Snapshot(row, msgs[m := msgs[m].(place := Unacked(tags))], tags + 1,
                     workers[w := Busy(m, tags, BODY, msgs[m].header, Received)])
  {
  }

  lemma SnapshotPipeline(row: Row, msgs: seq<Message>, tags: nat, workers: seq<Handler>, w: nat,
                         r: Option<Transcript>, err: string)
    requires w < |workers| && workers[w].Busy? && workers[w].id < |msgs| && workers[w].phase.Running?
    ensures Next(Snapshot(row, msgs, tags, workers), Pipeline(w, r, err))
         == Snapshot(row, msgs, tags,
                     workers[w := workers[w].(phase := if r.Some? then Completing(r.value) else Publishing(err))])
  {
  }

  /** A run that obeys a policy, extended by one permitted event. */
  ghost predicate Leads(p: Policy, n: nat, es: seq<Event>, t: State) {
    Obeys(p, Init(n), es) && Run(Init(n), es) == t
  }

  lemma Extend(p: Policy, n: nat, es: seq<Event>, t: State, e: Event)
    requires Leads(p, n, es, t) && Permits(p, t, e)
    ensures Leads(p, n, es + [e], Next(t, e))
    ensures FaultlessRun(es) && Faultless(e) ==> FaultlessRun(es + [e])
  {
    assert (es + [e])[..|es|] == es;
  }

  /** One attempt up to the result of the pipeline, on any free worker. */
  lemma Attempt(p: Policy, n: nat, es: seq<Event>, row: Row, msgs: seq<Message>, tags: nat, workers: seq<Handler>,
                w: nat, m: nat, r: Option<Transcript>) returns (es': seq<Event>)
    requires Leads(p, n, es, Snapshot(row, msgs, tags, workers))
    requires w < |workers| && workers[w].Idle? && m < |msgs| && msgs[m].place == InJobs && msgs[m].body == BODY
    requires !row.status.Completed?
    ensures Leads(p, n, es',
                  Snapshot(Updated(row, MarkProcessing), msgs[m := msgs[m].(place := Unacked(tags))], tags + 1,
                           workers[w := Busy(m, tags, BODY, msgs[m].header,
                                             if r.Some? then Completing(r.value) else Publishing("e"))]))
    ensures FaultlessRun(es) ==> FaultlessRun(es')
  {
    var ms := msgs[m := msgs[m].(place := Unacked(tags))];
    var h := Busy(m, tags, BODY, msgs[m].header, Received);
    Extend(p, n, es, Snapshot(row, msgs, tags, workers), Deliver(w, m));
    SnapshotDeliver(row, msgs, tags, workers, w, m);
    es' := es + [Deliver(w, m)];
    var ws := workers[w := h];
    Extend(p, n, es', Snapshot(row, ms, tags + 1, ws), Work(w, FINE, ""));
    SnapshotWork(row, ms, tags + 1, ws, w, FINE, "");
    es' := es' + [Work(w, FINE, "")];
    var ws2 := ws[w := h.(phase := Begin)];
    Extend(p, n, es', Snapshot(row, ms, tags + 1, ws2), Work(w, FINE, ""));
    SnapshotWork(row, ms, tags + 1, ws2, w, FINE, "");
    es' := es' + [Work(w, FINE, "")];
    var row2 := Updated(row, MarkProcessing);
    var ws3 := ws2[w := h.(phase := Running)];
    Extend(p, n, es', Snapshot(row2, ms, tags + 1, ws3), Pipeline(w, r, "e"));
    SnapshotPipeline(row2, ms, tags + 1, ws3, w, r, "e");
    es' := es' + [Pipeline(w, r, "e")];
    assert ws3[w := h.(phase := if r.Some? then Completing(r.value) else Publishing("e"))]
        == workers[w := h.(phase := if r.Some? then Completing(r.value) else Publishing("e"))];
  }

  /** One awaited call of worker w, from a snapshot to the next. */
  lemma OneCall(p: Policy, n: nat, es: seq<Event>, row: Row, msgs: seq<Message>, tags: nat, workers: seq<Handler>,
                w: nat, o: Outcome) returns (es': seq<Event>)
    requires Leads(p, n, es, Snapshot(row, msgs, tags, workers))
    requires w < |workers| && workers[w].Busy? && workers[w].body == BODY && workers[w].id < |msgs|
    requires WorkEnabled(workers[w], o) && !workers[w].phase.RejectPoison?
    requires Permits(p, Snapshot(row, msgs, tags, workers), Work(w, o, "e"))
    ensures es' == es + [Work(w, o, "e")]
    ensures Leads(p, n, es', Snapshot(RowAfter(row, workers[w], o), MsgsAfter(msgs, workers[w], o), tags,
                                      workers[w := Resumes(map[0 := row], workers[w], o, "e")]))
    ensures FaultlessRun(es) && o == FINE ==> FaultlessRun(es')
  {
    Extend(p, n, es, Snapshot(row, msgs, tags, workers), Work(w, o, "e"));
    SnapshotWork(row, msgs, tags, workers, w, o, "e");
    es' := es + [Work(w, o, "e")];
  }

  lemma UploadRun(p: Policy, n: nat)
    ensures Leads(p, n, UploadEvents(), Snapshot(FIRST, [Message(BODY, Absent, InJobs, 0)], 0, seq(n, i => Idle)))
    ensures FaultlessRun(UploadEvents())
  {
    var e := Serve(0, FINE, None);
    UploadSteps(n);
    UploadSteps'(n);
    Extend(p, n, [], Init(n), Arrive("h", "mp3", true));
    var es := [] + [Arrive("h", "mp3", true)];
    Extend(p, n, es, Uploading(n, Arrived, map[], {Temp(0)}, []), e);
    Extend(p, n, es + [e], Uploading(n, Hashed, map[], {Temp(0)}, []), e);
    Extend(p, n, es + [e] + [e], Uploading(n, Missed, map[], {Temp(0)}, []), e);
    Extend(p, n, es + [e] + [e] + [e], Uploading(n, Promoted, map[], {FILE}, []), e);
    Extend(p, n, es + [e] + [e] + [e] + [e], Uploading(n, Saved, map[0 := FIRST], {FILE}, []), e);
    assert UploadEvents() == es + [e] + [e] + [e] + [e] + [e];
  }

  /* ---------- two workers ---------- */

  const T := Transcript("", "en", 0.0, [])

  const FAILED_ONCE := Busy(0, 0, BODY, Absent, Recording("e"))

  /** Worker 0 published the retry copy and is about to record it; worker 1 has just completed the copy. */
  function Race(n: nat): State
    requires n >= 2
  {
    Snapshot(Updated(Updated(Updated(FIRST, MarkProcessing), MarkProcessing), Complete(T)),
             [Message(BODY, Absent, Unacked(0), 0), Message(BODY, Count(1), Unacked(1), 0)], 2,
             seq(n, i => Idle)[0 := FAILED_ONCE][1 := Busy(1, 1, BODY, Count(1), DoneAck)])
  }

  const TRIED := Updated(FIRST, MarkProcessing)
  const HELD := Message(BODY, Absent, Unacked(0), 0)
  const COPY := Message(BODY, Count(1), InRetry(10_000), 0)

  lemma PublishCopy(p: Policy, n: nat, es: seq<Event>, row: Row) returns (es': seq<Event>)
    requires n >= 1
    requires Leads(p, n, es, Snapshot(row, [HELD], 1, seq(n, i => Idle)[0 := FAILED_ONCE.(phase := Publishing("e"))]))
    ensures Leads(p, n, es', Snapshot(row, [HELD, COPY], 1, seq(n, i => Idle)[0 := FAILED_ONCE]))
    ensures FaultlessRun(es) ==> FaultlessRun(es')
  {
    var ws: seq<Handler> := seq(n, i => Idle);
    var h := FAILED_ONCE.(phase := Publishing("e"));
    es' := OneCall(p, n, es, row, [HELD], 1, ws[0 := h], 0, FINE);
    assert [HELD] + [COPY] == [HELD, COPY] && ws[0 := h][0 := FAILED_ONCE] == ws[0 := FAILED_ONCE];
  }

  lemma FirstAttempt(p: Policy, n: nat, r: Option<Transcript>) returns (es: seq<Event>)
    requires n >= 1
    ensures Leads(p, n, es, Snapshot(TRIED, [HELD], 1, seq(n, i => Idle)[
              0 := FAILED_ONCE.(phase := if r.Some? then Completing(r.value) else Publishing("e"))]))
    ensures FaultlessRun(es)
  {
    var first := Message(BODY, Absent, InJobs, 0);
    UploadRun(p, n);
    es := Attempt(p, n, UploadEvents(), FIRST, [first], 0, seq(n, i => Idle), 0, 0, r);
    assert [first][0 := HELD] == [HELD];
  }

  lemma CopyCompletes(p: Policy, n: nat, es: seq<Event>) returns (es': seq<Event>)
    requires n >= 2 && Leads(p, n, es, Snapshot(TRIED, [HELD, COPY], 1, seq(n, i => Idle)[0 := FAILED_ONCE]))
    ensures Leads(p, n, es', Race(n))
    ensures FaultlessRun(es) ==> FaultlessRun(es')
  {
    var ws := seq(n, i => Idle)[0 := FAILED_ONCE];
    var back, taken := COPY.(place := InJobs), COPY.(place := Unacked(1));
    Extend(p, n, es, Snapshot(TRIED, [HELD, COPY], 1, ws), Expire(1));
    assert [HELD, COPY][1 := back] == [HELD, back];
    es' := es + [Expire(1)];
    es' := Attempt(p, n, es', TRIED, [HELD, back], 1, ws, 1, 1, Some(T));
    assert [HELD, back][1 := taken] == [HELD, taken];
    var h := Busy(1, 1, BODY, Count(1), Completing(T));
    es' := OneCall(p, n, es', Updated(TRIED, MarkProcessing), [HELD, taken], 2, ws[1 := h], 1, FINE);
    assert ws[1 := h][1 := h.(phase := DoneAck)] == ws[1 := h.(phase := DoneAck)];
  }

  lemma ReachRace(p: Policy, n: nat) returns (es: seq<Event>)
    requires n >= 2
    ensures Leads(p, n, es, Race(n))
    ensures FaultlessRun(es)
  {
    es := FirstAttempt(p, n, None);
    es := PublishCopy(p, n, es, TRIED);
    es := CopyCompletes(p, n, es);
  }

  /** The late `record_retry` overwrites `completed`, although no call raised. */
  lemma RaceOverwritesCompleted(n: nat)
    requires n >= 2
    ensures IsCompleted(Race(n), 0)
    ensures !KeepsCompleted(Race(n), Next(Race(n), Work(0, FINE, "e")))
  {
    var s := Race(n);
    SnapshotWork(s.rows[0], s.msgs, 2, s.workers, 0, FINE, "e");
    var t := Next(s, Work(0, FINE, "e"));
    assert IsCompleted(s, 0) && t.rows[0].status == Queued;
  }

  const LATE := Message(BODY, Absent, Unacked(0), 0)
  const TAKEN := Message(BODY, Count(1), Unacked(1), 0)

  /** The last three calls of the race: record_retry, and the two acks. */
  lemma RaceEnds(p: Policy, n: nat, es: seq<Event>) returns (es': seq<Event>)
    requires n >= 2 && Leads(p, n, es, Race(n))
    ensures Leads(p, n, es', Snapshot(Updated(Race(n).rows[0], RecordRetry("e")),
                                      [LATE.(place := Gone), TAKEN.(place := Gone)], 2,
                                      Race(n).workers[0 := FAILED_ONCE.(phase := HandledAck)][1 := Idle][0 := Idle]))
    ensures FaultlessRun(es) ==> FaultlessRun(es')
  {
    var row, ws := Race(n).rows[0], Race(n).workers;
    es' := OneCall(p, n, es, row, [LATE, TAKEN], 2, ws, 0, FINE);
    var row', ws1 := Updated(row, RecordRetry("e")), ws[0 := FAILED_ONCE.(phase := HandledAck)];
    es' := OneCall(p, n, es', row', [LATE, TAKEN], 2, ws1, 1, FINE);
    assert [LATE, TAKEN][1 := TAKEN.(place := Gone)] == [LATE, TAKEN.(place := Gone)];
    es' := OneCall(p, n, es', row', [LATE, TAKEN.(place := Gone)], 2, ws1[1 := Idle], 0, FINE);
    assert [LATE, TAKEN.(place := Gone)][0 := LATE.(place := Gone)] == [LATE.(place := Gone), TAKEN.(place := Gone)];
  }

  /** Where the race ends: the row says `queued`, no message is left and every worker is free. */
  function Stranded(n: nat): State
    requires n >= 2
  {
    Snapshot(Updated(Race(n).rows[0], RecordRetry("e")), [LATE.(place := Gone), TAKEN.(place := Gone)], 2,
             Race(n).workers[0 := FAILED_ONCE.(phase := HandledAck)][1 := Idle][0 := Idle])
  }

  /** No call on the way there raises, and nothing can move afterwards. */
  lemma RaceStrands(p: Policy, n: nat) returns (es: seq<Event>)
    requires n >= 2
    ensures Obeys(p, Init(n), es) && FaultlessRun(es) && Run(Init(n), es) == Stranded(n)
    ensures !NoneStuck(Run(Init(n), es))
  {
    es := ReachRace(p, n);
    es := RaceEnds(p, n, es);
    var s := Run(Init(n), es);
    assert s.msgs == [LATE.(place := Gone), TAKEN.(place := Gone)];
    assert IsAccepted(s, 0) && s.rows[0].status == Queued && !HasLiveMessage(s, 0);
  }

  /* ---------- one worker, a misreported commit ---------- */

  /** The handler has committed the transcript but is told that something raised. */
  function Misreported(n: nat): State
    requires n >= 1
  {
    Snapshot(Updated(Updated(FIRST, MarkProcessing), Complete(T)),
             [Message(BODY, Absent, Unacked(0), 0), Message(BODY, Count(1), InRetry(10_000), 0)], 1,
             seq(n, i => Idle)[0 := FAILED_ONCE])
  }

  lemma CommitMisreported(p: Policy, n: nat, es: seq<Event>) returns (es': seq<Event>)
    requires n >= 1 && (p.lateAck || p.lateCommit)
    requires Leads(p, n, es, Snapshot(TRIED, [HELD], 1, seq(n, i => Idle)[0 := FAILED_ONCE.(phase := Completing(T))]))
    ensures Leads(p, n, es', Snapshot(Updated(TRIED, Complete(T)), [HELD], 1,
                                      seq(n, i => Idle)[0 := FAILED_ONCE.(phase := Publishing("e"))]))
  {
    var ws: seq<Handler> := seq(n, i => Idle);
    var h, acking := FAILED_ONCE.(phase := Completing(T)), FAILED_ONCE.(phase := DoneAck);
    var failing := FAILED_ONCE.(phase := Publishing("e"));
    assert ws[0 := h][0 := failing] == ws[0 := failing] == ws[0 := acking][0 := failing];
    assert ws[0 := h][0 := acking] == ws[0 := acking];
    if p.lateCommit {
      es' := OneCall(p, n, es, TRIED, [HELD], 1, ws[0 := h], 0, Outcome(true, true));
    } else {
      es' := OneCall(p, n, es, TRIED, [HELD], 1, ws[0 := h], 0, FINE);
      es' := OneCall(p, n, es', Updated(TRIED, Complete(T)), [HELD], 1, ws[0 := acking], 0, Outcome(false, true));
    }
  }

  lemma ReachMisreported(p: Policy, n: nat) returns (es: seq<Event>)
    requires n >= 1 && (p.lateAck || p.lateCommit)
    ensures Leads(p, n, es, Misreported(n))
  {
    es := FirstAttempt(p, n, Some(T));
    es := CommitMisreported(p, n, es);
    es := PublishCopy(p, n, es, Updated(TRIED, Complete(T)));
  }

  lemma MisreportOverwritesCompleted(n: nat)
    requires n >= 1
    ensures IsCompleted(Misreported(n), 0)
    ensures !KeepsCompleted(Misreported(n), Next(Misreported(n), Work(0, FINE, "e")))
  {
    var s := Misreported(n);
    SnapshotWork(s.rows[0], s.msgs, 1, s.workers, 0, FINE, "e");
    var t := Next(s, Work(0, FINE, "e"));
    assert IsCompleted(s, 0) && t.rows[0].status == Queued;
  }

  /* ---------- the exact conditions ---------- */

  ghost predicate NeverStuckWith(n: nat) {
    forall es :: NoneStuck(Run(Init(n), es))
  }

  /** No accepted job is ever stranded if and only if at most one worker process runs. */
  lemma NoStuckRowIff(n: nat)
    ensures NeverStuckWith(n) <==> n <= 1
  {
    if n <= 1 {
      forall es ensures NoneStuck(Run(Init(n), es)) { NeverStuck(n, es); }
    } else {
      var es := RaceStrands(Policy(false, false, false), n);
    }
  }

  lemma Unstable(p: Policy, n: nat, es: seq<Event>, s: State, e: Event)
    requires Leads(p, n, es, s) && Permits(p, s, e) && !KeepsCompleted(s, Next(s, e))
    ensures !StableUnder(p, n)
  {
    Extend(p, n, es, s, e);
    assert Obeys(p, Init(n), es + [e]);
    assert !KeepsCompleted(Run(Init(n), es), Run(Init(n), es + [e]));
  }

  /** `completed` is final on every run exactly with one worker whose commit and ack never misreport. */
  lemma CompletedStableIff(p: Policy, n: nat)
    ensures StableUnder(p, n) <==> n == 0 || (n == 1 && !p.lateAck && !p.lateCommit)
  {
    if n >= 2 {
      var es := ReachRace(p, n);
      RaceOverwritesCompleted(n);
      Unstable(p, n, es, Race(n), Work(0, FINE, "e"));
    } else if n == 1 && (p.lateAck || p.lateCommit) {
      var es := ReachMisreported(p, n);
      MisreportOverwritesCompleted(n);
      Unstable(p, n, es, Misreported(n), Work(0, FINE, "e"));
    } else if n == 1 {
      forall es, e | Obeys(p, Init(n), es + [e])
        ensures KeepsCompleted(Run(Init(n), es), Run(Init(n), es + [e]))
      {
        StableStep(p, n, es, e);
      }
    } else {
      forall es, e ensures KeepsCompleted(Run(Init(n), es), Run(Init(n), es + [e])) {
        NoWorkerObeys(es + [e]);
        StableStep(Policy(false, false, false), 0, es, e);
      }
    }
  }

  lemma {:induction false} NoWorkerObeys(es: seq<Event>)
    ensures Obeys(Policy(false, false, false), Init(0), es)
  {
    if es != [] {
      NoWorkerObeys(es[..|es| - 1]);
      WorkersKeepNumber(0, es[..|es| - 1]);
    }
  }
}

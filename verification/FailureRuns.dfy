/** Schedules that climb the whole retry ladder, and the exact conditions they show. */
module FailureRuns {
  import opened Domain
  import opened Retry
  import opened Protocol
  import opened Wellformed
  import opened Sums
  import opened BoundedWork
  import opened CompletedStable
  import opened StatusMachine
  import opened CounterRuns

  function Rung(k: nat): Header {
    if k == 0 then Absent else Count(k)
  }

  /** What is published after the failed attempt on rung k. */
  function RetryCopy(k: nat): Message
    requires k < 3
  {
    Message(BODY, Rung(k + 1), InRetry(RETRY_TTLS_MS[k]), 0)
  }

  /** The k-th copy is waiting in the jobs queue and was never requeued, nor was any other. */
  predicate Waiting(row: Row, msgs: seq<Message>, k: nat) {
    && k <= 3 && |msgs| == k + 1 && msgs[k] == Message(BODY, Rung(k), InJobs, 0)
    && row.status.Queued?
    && forall i :: 0 <= i < |msgs| ==> msgs[i].body == BODY && msgs[i].requeues == 0
  }

  /** An attempt that fails: in the pipeline, or already in `mark_processing` if that was lost. */
  lemma FailingAttempt(p: Policy, n: nat, es: seq<Event>, row: Row, msgs: seq<Message>, tags: nat, ws: seq<Handler>,
                       w: nat, k: nat, lost: bool) returns (es': seq<Event>)
    requires Leads(p, n, es, Snapshot(row, msgs, tags, ws)) && Waiting(row, msgs, k)
    requires w < |ws| && ws[w].Idle? && (lost ==> p.lostStart)
    ensures Leads(p, n, es',
                  Snapshot(if lost then row else Updated(row, MarkProcessing),
                           msgs[k := msgs[k].(place := Unacked(tags))],
                           tags + 1, ws[w := Busy(k, tags, BODY, Rung(k), Publishing("e"))]))
  {
    if !lost {
      es' := Attempt(p, n, es, row, msgs, tags, ws, w, k, None);
    } else {
      var ms, h := msgs[k := msgs[k].(place := Unacked(tags))], Busy(k, tags, BODY, Rung(k), Received);
      Extend(p, n, es, Snapshot(row, msgs, tags, ws), Deliver(w, k));
      SnapshotDeliver(row, msgs, tags, ws, w, k);
      es' := es + [Deliver(w, k)];
      es' := OneCall(p, n, es', row, ms, tags + 1, ws[w := h], w, FINE);
      es' := OneCall(p, n, es', row, ms, tags + 1, ws[w := h][w := h.(phase := Begin)], w, Outcome(false, true));
      assert ws[w := h][w := h.(phase := Begin)][w := h.(phase := Publishing("e"))]
          == ws[w := h.(phase := Publishing("e"))];
    }
  }

  /** What a handler on rung k publishes after a failed attempt, and where it stands afterwards. */
  lemma RetryCall(rows: map<JobId, Row>, tags: nat, k: nat)
    requires k < 3
    ensures var h := Busy(k, tags, BODY, Rung(k), Publishing("e"));
            && Awaits(h) == Publish(RetryCopy(k)) && WorkEnabled(h, FINE)
            && Resumes(rows, h, FINE, "e") == h.(phase := Recording("e"))
  {
    LadderDescends(Rung(k));
  }

  lemma PublishRetry(p: Policy, n: nat, es: seq<Event>, row: Row, msgs: seq<Message>, tags: nat, ws: seq<Handler>,
                     w: nat, k: nat) returns (es': seq<Event>)
    requires k < 3 && w < |ws| && |msgs| == k + 1
    requires Leads(p, n, es, Snapshot(row, msgs, tags + 1, ws[w := Busy(k, tags, BODY, Rung(k), Publishing("e"))]))
    ensures Leads(p, n, es', Snapshot(row, msgs + [RetryCopy(k)], tags + 1,
                                      ws[w := Busy(k, tags, BODY, Rung(k), Recording("e"))]))
  {
    var h := Busy(k, tags, BODY, Rung(k), Publishing("e"));
    RetryCall(map[0 := row], tags, k);
    es' := OneCall(p, n, es, row, msgs, tags + 1, ws[w := h], w, FINE);
    assert ws[w := h][w := h.(phase := Recording("e"))] == ws[w := h.(phase := Recording("e"))];
  }

  lemma RecordCopy(p: Policy, n: nat, es: seq<Event>, row: Row, msgs: seq<Message>, tags: nat, ws: seq<Handler>,
                   w: nat, h: Handler) returns (es': seq<Event>)
    requires w < |ws| && h.Busy? && h.body == BODY && h.phase == Recording("e") && h.id < |msgs|
    requires Leads(p, n, es, Snapshot(row, msgs, tags, ws[w := h]))
    ensures Leads(p, n, es', Snapshot(Updated(row, RecordRetry("e")), msgs, tags, ws[w := h.(phase := HandledAck)]))
  {
    es' := OneCall(p, n, es, row, msgs, tags, ws[w := h], w, FINE);
    assert ws[w := h][w := h.(phase := HandledAck)] == ws[w := h.(phase := HandledAck)];
  }

  lemma AckHandledCopy(p: Policy, n: nat, es: seq<Event>, row: Row, msgs: seq<Message>, tags: nat, ws: seq<Handler>,
                       w: nat, h: Handler) returns (es': seq<Event>)
    requires w < |ws| && ws[w].Idle? && h.Busy? && h.body == BODY && h.phase == HandledAck
    requires h.id < |msgs| && msgs[h.id].place == Unacked(h.tag)
    requires Leads(p, n, es, Snapshot(row, msgs, tags, ws[w := h]))
    ensures Leads(p, n, es', Snapshot(row, msgs[h.id := msgs[h.id].(place := Gone)], tags, ws))
  {
    es' := OneCall(p, n, es, row, msgs, tags, ws[w := h], w, FINE);
    assert ws[w := h][w := Idle] == ws;
  }

  lemma RecordAndAck(p: Policy, n: nat, es: seq<Event>, row: Row, msgs: seq<Message>, tags: nat, ws: seq<Handler>,
                     w: nat, k: nat) returns (es': seq<Event>)
    requires w < |ws| && ws[w].Idle? && k < |msgs| && msgs[k].place == Unacked(tags)
    requires Leads(p, n, es, Snapshot(row, msgs, tags + 1, ws[w := Busy(k, tags, BODY, Rung(k), Recording("e"))]))
    ensures Leads(p, n, es', Snapshot(Updated(row, RecordRetry("e")), msgs[k := msgs[k].(place := Gone)], tags + 1, ws))
  {
    var h := Busy(k, tags, BODY, Rung(k), Recording("e"));
    es' := RecordCopy(p, n, es, row, msgs, tags + 1, ws, w, h);
    es' := AckHandledCopy(p, n, es', Updated(row, RecordRetry("e")), msgs, tags + 1, ws, w, h.(phase := HandledAck));
  }

  /** From a failed attempt to the next copy waiting in the jobs queue. */
  lemma NextCopy(p: Policy, n: nat, es: seq<Event>, row: Row, msgs: seq<Message>, tags: nat, ws: seq<Handler>,
                 w: nat, k: nat) returns (es': seq<Event>)
    requires k < 3 && w < |ws| && ws[w].Idle? && |msgs| == k + 1 && msgs[k].place == Unacked(tags)
    requires Leads(p, n, es, Snapshot(row, msgs, tags + 1, ws[w := Busy(k, tags, BODY, Rung(k), Publishing("e"))]))
    ensures Leads(p, n, es', Snapshot(Updated(row, RecordRetry("e")),
                                      msgs[k := msgs[k].(place := Gone)] + [Message(BODY, Rung(k + 1), InJobs, 0)],
                                      tags + 1, ws))
  {
    var copy, gone := RetryCopy(k), msgs[k := msgs[k].(place := Gone)];
    es' := PublishRetry(p, n, es, row, msgs, tags, ws, w, k);
    es' := RecordAndAck(p, n, es', row, msgs + [copy], tags, ws, w, k);
    assert (msgs + [copy])[k := msgs[k].(place := Gone)] == gone + [copy];
    es' := Expired(p, n, es', Updated(row, RecordRetry("e")), gone, copy, tags + 1, ws);
  }

  lemma Expired(p: Policy, n: nat, es: seq<Event>, row: Row, msgs: seq<Message>, copy: Message, tags: nat,
                ws: seq<Handler>)
    returns (es': seq<Event>)
    requires copy.place.InRetry? && Leads(p, n, es, Snapshot(row, msgs + [copy], tags, ws))
    ensures Leads(p, n, es', Snapshot(row, msgs + [copy.(place := InJobs)], tags, ws))
  {
    Extend(p, n, es, Snapshot(row, msgs + [copy], tags, ws), Expire(|msgs|));
    es' := es + [Expire(|msgs|)];
    assert (msgs + [copy])[|msgs| := copy.(place := InJobs)] == msgs + [copy.(place := InJobs)];
  }

  /** One whole failed round on worker w. */
  lemma FailedRound(p: Policy, n: nat, es: seq<Event>, row: Row, msgs: seq<Message>, tags: nat, ws: seq<Handler>,
                    w: nat, k: nat, lost: bool)
    returns (es': seq<Event>, row': Row, msgs': seq<Message>)
    requires Leads(p, n, es, Snapshot(row, msgs, tags, ws)) && Waiting(row, msgs, k) && k < 3
    requires w < |ws| && ws[w].Idle? && (lost ==> p.lostStart)
    ensures Leads(p, n, es', Snapshot(row', msgs', tags + 1, ws)) && Waiting(row', msgs', k + 1)
  {
    es' := FailingAttempt(p, n, es, row, msgs, tags, ws, w, k, lost);
    var row1 := if lost then row else Updated(row, MarkProcessing);
    var held := msgs[k := msgs[k].(place := Unacked(tags))];
    es' := NextCopy(p, n, es', row1, held, tags, ws, w, k);
    row' := Updated(row1, RecordRetry("e"));
    msgs' := held[k := held[k].(place := Gone)] + [Message(BODY, Rung(k + 1), InJobs, 0)];
  }

  /** Rounds until the retries are used up. */
  lemma Climb(p: Policy, n: nat, es: seq<Event>, row: Row, msgs: seq<Message>, tags: nat, ws: seq<Handler>,
              w: nat, k: nat, lost: bool)
    returns (es': seq<Event>, row': Row, msgs': seq<Message>, tags': nat)
    requires Leads(p, n, es, Snapshot(row, msgs, tags, ws)) && Waiting(row, msgs, k)
    requires w < |ws| && ws[w].Idle? && (lost ==> p.lostStart)
    ensures Leads(p, n, es', Snapshot(row', msgs', tags', ws)) && Waiting(row', msgs', 3)
    decreases 3 - k
  {
    if k == 3 {
      es', row', msgs', tags' := es, row, msgs, tags;
    } else {
      es', row', msgs' := FailedRound(p, n, es, row, msgs, tags, ws, w, k, lost);
      es', row', msgs', tags' := Climb(p, n, es', row', msgs', tags + 1, ws, w, k + 1, lost);
    }
  }

  /** The last attempt, up to the dead copy being confirmed. */
  lemma Bury(p: Policy, n: nat, es: seq<Event>, row: Row, msgs: seq<Message>, tags: nat, ws: seq<Handler>,
             w: nat, lost: bool)
    returns (es': seq<Event>, row': Row, msgs': seq<Message>)
    requires Leads(p, n, es, Snapshot(row, msgs, tags, ws)) && Waiting(row, msgs, 3)
    requires w < |ws| && ws[w].Idle? && (lost ==> p.lostStart)
    ensures Leads(p, n, es', Snapshot(row', msgs', tags + 1, ws[w := Busy(3, tags, BODY, Count(3), Burying("e"))]))
    ensures row'.status == if lost then Queued else Processing
    ensures |msgs'| == 5 && msgs'[3] == Message(BODY, Count(3), Unacked(tags), 0)
    ensures forall i :: 0 <= i < |msgs'| ==> msgs'[i].body == BODY && msgs'[i].requeues == 0
  {
    es' := FailingAttempt(p, n, es, row, msgs, tags, ws, w, 3, lost);
    row' := if lost then row else Updated(row, MarkProcessing);
    var held, h := msgs[3 := msgs[3].(place := Unacked(tags))], Busy(3, tags, BODY, Count(3), Publishing("e"));
    es' := OneCall(p, n, es', row', held, tags + 1, ws[w := h], w, FINE);
    assert ws[w := h][w := h.(phase := Burying("e"))] == ws[w := h.(phase := Burying("e"))];
    msgs' := held + [Message(BODY, Count(3), InDead, 0)];
  }

  /** Upload, three failed rounds and the last attempt on worker 0. */
  lemma ClimbAndBury(p: Policy, n: nat, lost: bool)
    returns (es: seq<Event>, row: Row, msgs: seq<Message>, tags: nat)
    requires n >= 1 && (lost ==> p.lostStart)
    ensures Leads(p, n, es, Snapshot(row, msgs, tags + 1,
                                     seq(n, i => Idle)[0 := Busy(3, tags, BODY, Count(3), Burying("e"))]))
    ensures row.status == if lost then Queued else Processing
    ensures |msgs| == 5 && msgs[3] == Message(BODY, Count(3), Unacked(tags), 0)
    ensures forall i :: 0 <= i < |msgs| ==> msgs[i].body == BODY && msgs[i].requeues == 0
  {
    UploadRun(p, n);
    es, row, msgs, tags := Climb(p, n, UploadEvents(), FIRST, [Message(BODY, Absent, InJobs, 0)], 0,
                                 seq(n, i => Idle), 0, 0, lost);
    es, row, msgs := Bury(p, n, es, row, msgs, tags, seq(n, i => Idle), 0, lost);
  }

  lemma NotDrawn(p: Policy, n: nat, es: seq<Event>, s: State, e: Event)
    requires Leads(p, n, es, s) && Permits(p, s, e) && !MovesAlongArrows(s, Next(s, e))
    ensures !DiagramUnder(p, n)
  {
    Extend(p, n, es, s, e);
    assert Obeys(p, Init(n), es + [e]) && !MovesAlongArrows(Run(Init(n), es), Run(Init(n), es + [e]));
  }

  /** A lost `mark_processing` on every attempt ends in the undrawn move queued -> failed. */
  lemma LostStartNotDrawn(p: Policy, n: nat)
    requires n >= 1 && p.lostStart
    ensures !DiagramUnder(p, n)
  {
    var es, row, msgs, tags := ClimbAndBury(p, n, true);
    var ws := seq(n, i => Idle)[0 := Busy(3, tags, BODY, Count(3), Burying("e"))];
    var s := Snapshot(row, msgs, tags + 1, ws);
    SnapshotWork(row, msgs, tags + 1, ws, 0, FINE, "e");
    assert Next(s, Work(0, FINE, "e")).rows[0].status == Failed && s.rows[0].status == Queued;
    NotDrawn(p, n, es, s, Work(0, FINE, "e"));
  }

  /** Status changes follow the diagram (but for revivals) exactly with one worker that is never misled. */
  lemma DiagramIff(p: Policy, n: nat)
    ensures DiagramUnder(p, n) <==> n == 0 || (n == 1 && !p.lateAck && !p.lateCommit && !p.lostStart)
  {
    if n >= 2 {
      var es := ReachRace(p, n);
      SnapshotWork(Race(n).rows[0], Race(n).msgs, 2, Race(n).workers, 0, FINE, "e");
      assert Next(Race(n), Work(0, FINE, "e")).rows[0].status == Queued && Race(n).rows[0].status == Completed;
      NotDrawn(p, n, es, Race(n), Work(0, FINE, "e"));
    } else if n == 1 && (p.lateAck || p.lateCommit) {
      var es := ReachMisreported(p, n);
      var s := Misreported(n);
      SnapshotWork(s.rows[0], s.msgs, 1, s.workers, 0, FINE, "e");
      assert Next(s, Work(0, FINE, "e")).rows[0].status == Queued && s.rows[0].status == Completed;
      NotDrawn(p, n, es, s, Work(0, FINE, "e"));
    } else if n == 1 && p.lostStart {
      LostStartNotDrawn(p, n);
    } else {
      forall es, e | Obeys(p, Init(n), es + [e]) ensures MovesAlongArrows(Run(Init(n), es), Run(Init(n), es + [e])) {
        var q := Policy(false, false, false);
        if n == 0 { NoWorkerObeys(es + [e]); } else { assert p == q; }
        ArrowStep(q, n, es, e);
      }
    }
  }

  /* ---------- `failed` ---------- */

  lemma NotFinal(p: Policy, n: nat, es: seq<Event>, s: State, e: Event, requeued: bool)
    requires Leads(p, n, es, s) && IsFailed(s, 0) && (requeued || Requeues(s, 0) == 0) && !IsFailed(Next(s, e), 0)
    ensures !FailedFinalWith(n, requeued)
  {
    RunSnoc(Init(n), es, e);
    assert !KeepsFailed(n, es, e, 0, requeued);
  }

  /** After the burial: the connection drops, the message comes back, and the failed job is attempted again. */
  lemma RequeuedRevives(n: nat)
    requires n >= 1
    ensures !FailedFinalWith(n, true)
  {
    var p := Policy(false, false, false);
    var es, row, msgs, tags := ClimbAndBury(p, n, false);
    var idle: seq<Handler> := seq(n, i => Idle);
    var h := Busy(3, tags, BODY, Count(3), Burying("e"));
    var failed, acking := Updated(row, Fail("e")), h.(phase := HandledAck);
    es := OneCall(p, n, es, row, msgs, tags + 1, idle[0 := h], 0, FINE);
    assert idle[0 := h][0 := acking] == idle[0 := acking];
    var s := Snapshot(failed, msgs, tags + 1, idle[0 := acking]);
    Extend(p, n, es, s, Requeue(3));
    var back := msgs[3 := Requeued(msgs[3])];
    assert Next(s, Requeue(3)) == Snapshot(failed, back, tags + 1, idle[0 := acking]);
    es := OneCall(p, n, es + [Requeue(3)], failed, back, tags + 1, idle[0 := acking], 0, FINE);
    assert idle[0 := acking][0 := Idle] == idle;
    RevivedAttempt(p, n, es, failed, back, tags + 1);
  }

  lemma RevivedAttempt(p: Policy, n: nat, es: seq<Event>, failed: Row, back: seq<Message>, tags: nat)
    requires n >= 1 && failed.status.Failed? && |back| > 3 && back[3].place == InJobs && back[3].body == BODY
    requires Leads(p, n, es, Snapshot(failed, back, tags, seq(n, i => Idle)))
    ensures !FailedFinalWith(n, true)
  {
    var idle: seq<Handler> := seq(n, i => Idle);
    var h, taken := Busy(3, tags, BODY, back[3].header, Received), back[3 := back[3].(place := Unacked(tags))];
    Extend(p, n, es, Snapshot(failed, back, tags, idle), Deliver(0, 3));
    SnapshotDeliver(failed, back, tags, idle, 0, 3);
    var es2 := OneCall(p, n, es + [Deliver(0, 3)], failed, taken, tags + 1, idle[0 := h], 0, FINE);
    assert idle[0 := h][0 := h.(phase := Begin)] == idle[0 := h.(phase := Begin)];
    SnapshotWork(failed, taken, tags + 1, idle[0 := h.(phase := Begin)], 0, FINE, "e");
    NotFinal(p, n, es2, Snapshot(failed, taken, tags + 1, idle[0 := h.(phase := Begin)]), Work(0, FINE, "e"), true);
  }

  /** Two workers need no requeue: a stalled `record_retry` lands after the ladder was used up. */
  lemma StalledRecordRevives(n: nat, requeued: bool)
    requires n >= 2
    ensures !FailedFinalWith(n, requeued)
  {
    var p := Policy(false, false, false);
    var ws := seq(n, i => Idle)[0 := FAILED_ONCE];
    var es := FirstAttempt(p, n, None);
    es := PublishCopy(p, n, es, TRIED);
    assert [HELD, COPY] == [HELD] + [COPY];
    es := Expired(p, n, es, TRIED, [HELD], COPY, 1, ws);
    StalledClimb(p, n, es, requeued);
  }

  /** The late `record_retry` of worker 0 takes a failed job back to `queued`. */
  lemma LateRecordRevives(p: Policy, n: nat, es: seq<Event>, row: Row, msgs: seq<Message>, tags: nat, ws: seq<Handler>,
                          requeued: bool)
    requires |ws| > 0 && ws[0] == FAILED_ONCE && row.status.Failed? && msgs != []
    requires Leads(p, n, es, Snapshot(row, msgs, tags, ws))
    requires forall i :: 0 <= i < |msgs| ==> msgs[i].requeues == 0
    ensures !FailedFinalWith(n, requeued)
  {
    var s := Snapshot(row, msgs, tags, ws);
    SumZero(s.msgs, RequeueWeight(0));
    SnapshotWork(row, msgs, tags, ws, 0, FINE, "e");
    NotFinal(p, n, es, s, Work(0, FINE, "e"), requeued);
  }

  /** Worker 1 climbs the rest of the ladder and buries the job; then worker 0 wakes up. */
  lemma StalledClimb(p: Policy, n: nat, es: seq<Event>, requeued: bool)
    requires n >= 2
    requires Leads(p, n, es, Snapshot(TRIED, [HELD] + [COPY.(place := InJobs)], 1, seq(n, i => Idle)[0 := FAILED_ONCE]))
    ensures !FailedFinalWith(n, requeued)
  {
    var ws := seq(n, i => Idle)[0 := FAILED_ONCE];
    var es', row, msgs, tags := ClimbBeside(p, n, es, ws);
    es', row, msgs := Bury(p, n, es', row, msgs, tags, ws, 1, false);
    var h := Busy(3, tags, BODY, Count(3), Burying("e"));
    es' := OneCall(p, n, es', row, msgs, tags + 1, ws[1 := h], 1, FINE);
    var ws' := ws[1 := h][1 := h.(phase := HandledAck)];
    LateRecordRevives(p, n, es', Updated(row, Fail("e")), msgs, tags + 1, ws', requeued);
  }

  /** The first retry round starts from a row that still says `processing`; the second is ordinary. */
  lemma ClimbBeside(p: Policy, n: nat, es: seq<Event>, ws: seq<Handler>)
    returns (es': seq<Event>, row: Row, msgs: seq<Message>, tags: nat)
    requires n >= 2 && ws == seq(n, i => Idle)[0 := FAILED_ONCE]
    requires Leads(p, n, es, Snapshot(TRIED, [HELD] + [COPY.(place := InJobs)], 1, ws))
    ensures Leads(p, n, es', Snapshot(row, msgs, tags, ws)) && Waiting(row, msgs, 3)
  {
    var ms := [HELD] + [COPY.(place := InJobs)];
    es' := Attempt(p, n, es, TRIED, ms, 1, ws, 1, 1, None);
    var held := ms[1 := ms[1].(place := Unacked(1))];
    es' := NextCopy(p, n, es', Updated(TRIED, MarkProcessing), held, 1, ws, 1, 1);
    row := Updated(Updated(TRIED, MarkProcessing), RecordRetry("e"));
    msgs := held[1 := held[1].(place := Gone)] + [Message(BODY, Rung(2), InJobs, 0)];
    es', row, msgs, tags := Climb(p, n, es', row, msgs, 2, ws, 1, 2, false);
  }

  /** `failed` is terminal exactly without requeues and with at most one worker. */
  lemma FailedFinalIff(n: nat, requeued: bool)
    ensures FailedFinalWith(n, requeued) <==> n == 0 || (n == 1 && !requeued)
  {
    if n >= 2 {
      StalledRecordRevives(n, requeued);
    } else if n == 1 && requeued {
      RequeuedRevives(n);
    } else {
      forall es, e, j ensures KeepsFailed(n, es, e, j, requeued) {
        if IsFailed(Run(Init(n), es), j) && (requeued || Requeues(Run(Init(n), es), j) == 0) {
          if n == 0 { NoWorkerNotFailed(es, j); } else { FailedFinal(n, es, e, j); }
        }
      }
    }
  }

  lemma {:induction false} NoWorkerNotFailed(es: seq<Event>, j: JobId)
    ensures j in Run(Init(0), es).rows ==> Run(Init(0), es).rows[j].status.Queued?
  {
    if es != [] {
      var s, e := Run(Init(0), es[..|es| - 1]), es[|es| - 1];
      NoWorkerNotFailed(es[..|es| - 1], j);
      WorkersKeepNumber(0, es[..|es| - 1]);
      WfAlways(0, es[..|es| - 1]);
      if Enabled(s, e) { RowsElsewhere(s, e, j); }
    }
  }
}

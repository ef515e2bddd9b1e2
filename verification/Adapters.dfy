/** The objects the code holds: the database, the broker's queues and the file store. */
module Adapters {
  import opened Domain
  import opened Protocol

  /** worker/db.py and the API's repository: one statement per method, each with its fate. */
  class Database {
    var rows: map<JobId, Row>

    constructor ()
      ensures rows == map[]
    {
      rows := map[];
    }

    method GetStatus(j: JobId, fate: Outcome) returns (raised: bool, status: Option<Status>)
      ensures raised == fate.raised
      ensures !raised ==> status == if j in rows then Some(rows[j].status) else None
    {
      raised := fate.raised;
      if j in rows {
        status := Some(rows[j].status);
      } else {
        status := None;
      }
    }

    method MarkProcessing(j: JobId, fate: Outcome) returns (raised: bool)
      modifies this
      ensures raised == fate.raised
      ensures rows == if fate.applied then Write(old(rows), j, Update.MarkProcessing) else old(rows)
      ensures rows.Keys == old(rows).Keys && forall k :: k in rows && k != j ==> rows[k] == old(rows)[k]
      ensures fate.applied && j in rows ==>
                && rows[j].status == Processing && rows[j].attempts == old(rows)[j].attempts + 1
                && rows[j].progress == 0.0
    {
      raised := fate.raised;
      if fate.applied && j in rows {
        var r := rows[j];
        rows := rows[j := r.(status := Processing, attempts := r.attempts + 1, progress := 0.0)];
      }
    }

    method UpdateProgress(j: JobId, progress: real, fate: Outcome) returns (raised: bool)
      modifies this
      ensures raised == fate.raised
      ensures rows == if fate.applied then Write(old(rows), j, Update.UpdateProgress(progress)) else old(rows)
      ensures rows.Keys == old(rows).Keys && forall k :: k in rows && k != j ==> rows[k] == old(rows)[k]
      ensures fate.applied && j in rows ==>
                rows[j].progress == if old(rows)[j].status == Processing then progress else old(rows)[j].progress
    {
      raised := fate.raised;
      if fate.applied && j in rows && rows[j].status == Processing {
        rows := rows[j := rows[j].(progress := progress)];
      }
    }

    method Complete(j: JobId, t: Transcript, fate: Outcome) returns (raised: bool)
      modifies this
      ensures raised == fate.raised
      ensures rows == if fate.applied then Write(old(rows), j, Update.Complete(t)) else old(rows)
      ensures rows.Keys == old(rows).Keys && forall k :: k in rows && k != j ==> rows[k] == old(rows)[k]
      ensures fate.applied && j in rows ==>
                && rows[j].status == Completed && rows[j].transcript == Some(t) && rows[j].language == Some(t.language)
                && rows[j].durationSec == Some(t.duration) && rows[j].progress == 1.0 && rows[j].error == None
    {
      raised := fate.raised;
      if fate.applied && j in rows {
        var r := rows[j].(status := Completed, transcript := Some(t), language := Some(t.language));
        rows := rows[j := r.(durationSec := Some(t.duration), progress := 1.0, error := None)];
      }
    }

    method RecordRetry(j: JobId, error: string, fate: Outcome) returns (raised: bool)
      modifies this
      ensures raised == fate.raised
      ensures rows == if fate.applied then Write(old(rows), j, Update.RecordRetry(error)) else old(rows)
      ensures rows.Keys == old(rows).Keys && forall k :: k in rows && k != j ==> rows[k] == old(rows)[k]
      ensures fate.applied && j in rows ==> rows[j].status == Queued && rows[j].error == Some(error)
    {
      raised := fate.raised;
      if fate.applied && j in rows {
        rows := rows[j := rows[j].(status := Queued, error := Some(error))];
      }
    }

    method Fail(j: JobId, error: string, fate: Outcome) returns (raised: bool)
      modifies this
      ensures raised == fate.raised
      ensures rows == if fate.applied then Write(old(rows), j, Update.Fail(error)) else old(rows)
      ensures rows.Keys == old(rows).Keys && forall k :: k in rows && k != j ==> rows[k] == old(rows)[k]
      ensures fate.applied && j in rows ==> rows[j].status == Failed && rows[j].error == Some(error)
    {
      raised := fate.raised;
      if fate.applied && j in rows {
        rows := rows[j := rows[j].(status := Failed, error := Some(error))];
      }
    }

    /** The completed rows with a hash. */
    function Hits(hash: string): set<JobId>
      reads this
    {
      set k | k in rows && rows[k].status == Completed && rows[k].contentHash == hash
    }

    /**
      * findOne: any of the completed rows with the hash, and nothing only if there is none.
      * Which of several it returns is up to the database: `choice`, if that is an answer.
      */
    method FindCompleted(hash: string, fate: Outcome, choice: Option<JobId>)
      returns (raised: bool, found: Option<JobId>)
      ensures raised == fate.raised
      ensures !raised && found.Some? ==>
                && found.value in rows && rows[found.value].status == Completed
                && rows[found.value].contentHash == hash
      ensures !raised && found.None? ==>
                forall k :: k in rows ==> !(rows[k].status == Completed && rows[k].contentHash == hash)
      ensures !raised && (if choice.Some? then choice.value in Hits(hash) else Hits(hash) == {}) ==> found == choice
    {
      raised, found := fate.raised, None;
      if raised { return; }
      var hits := Hits(hash);
      if choice.Some? && choice.value in hits {
        found := choice;
      } else if hits != {} {
        var k :| k in hits;
        found := Some(k);
      } else {
        assert forall k :: k in rows && rows[k].status == Completed && rows[k].contentHash == hash ==> k in hits;
      }
    }

    method Save(j: JobId, row: Row, fate: Outcome) returns (raised: bool)
      modifies this
      ensures raised == fate.raised
      ensures rows == if fate.applied then old(rows)[j := row] else old(rows)
    {
      raised := fate.raised;
      if fate.applied {
        rows := rows[j := row];
      }
    }

    method Delete(j: JobId, fate: Outcome) returns (raised: bool)
      modifies this
      ensures raised == fate.raised
      ensures rows == if fate.applied then old(rows) - {j} else old(rows)
    {
      raised := fate.raised;
      if fate.applied {
        rows := rows - {j};
      }
    }
  }

  /** The broker as its clients see it; `tags` is the next delivery tag. */
  class Broker {
    var msgs: seq<Message>
    var tags: nat

    constructor ()
      ensures msgs == [] && tags == 0
    {
      msgs, tags := [], 0;
    }

    method Publish(m: Message, fate: Outcome) returns (raised: bool)
      modifies this
      ensures raised == fate.raised && tags == old(tags)
      ensures msgs == if fate.applied then old(msgs) + [m] else old(msgs)
    {
      raised := fate.raised;
      if fate.applied {
        msgs := msgs + [m];
      }
    }

    /** What an ack or nack with this tag does to the message; a stale tag does nothing. */
    static function Answered(msgs: seq<Message>, id: nat, tag: nat, fate: Outcome, answer: Message): seq<Message>
      requires id < |msgs|
    {
      if fate.applied && msgs[id].place == Unacked(tag) then msgs[id := answer] else msgs
    }

    method Ack(id: nat, tag: nat, fate: Outcome) returns (raised: bool)
      requires id < |msgs|
      modifies this
      ensures raised == fate.raised && tags == old(tags)
      ensures msgs == Answered(old(msgs), id, tag, fate, old(msgs)[id].(place := Gone))
    {
      raised := fate.raised;
      if fate.applied && msgs[id].place == Unacked(tag) {
        msgs := msgs[id := msgs[id].(place := Gone)];
      }
    }

    /** nack(requeue): back to the jobs queue, or along the dead-letter binding of the jobs queue. */
    method Nack(id: nat, tag: nat, requeue: bool, fate: Outcome) returns (raised: bool)
      requires id < |msgs|
      modifies this
      ensures raised == fate.raised && tags == old(tags)
      ensures msgs == Answered(old(msgs), id, tag, fate,
                               if requeue then Requeued(old(msgs)[id]) else old(msgs)[id].(place := InDead))
    {
      raised := fate.raised;
      if fate.applied && msgs[id].place == Unacked(tag) {
        if requeue {
          msgs := msgs[id := msgs[id].(place := InJobs, requeues := msgs[id].requeues + 1)];
        } else {
          msgs := msgs[id := msgs[id].(place := InDead)];
        }
      }
    }
  }

  /** api/src/storage/storage.service.ts. */
  class Storage {
    var files: set<Path>

    constructor ()
      ensures files == {}
    {
      files := {};
    }

    /** An atomic rename; it can take effect only if the temp file is still there. */
    method Promote(from: Path, to: Path, fate: Outcome) returns (raised: bool)
      requires fate.applied ==> from in files
      modifies this
      ensures raised == fate.raised
      ensures files == if fate.applied then old(files) - {from} + {to} else old(files)
    {
      raised := fate.raised;
      if fate.applied {
        files := files - {from} + {to};
      }
    }

    /** unlink with its error swallowed. */
    method Remove(path: Path, fate: Outcome)
      modifies this
      ensures files == if fate.applied then old(files) - {path} else old(files)
    {
      if fate.applied {
        files := files - {path};
      }
    }

    /** Removes exactly the listed temp files whose unlink took effect; promoted files are never touched. */
    method PurgeStaleTempFiles(entries: seq<JobId>, fates: seq<Outcome>)
      requires |fates| == |entries|
      modifies this
      ensures files == old(files) - PurgedPaths(entries, fates)
    {
      for i := 0 to |entries|
        invariant files == old(files) - PurgedPaths(entries[..i], fates[..i])
      {
        Remove(Temp(entries[i]), fates[i]);
        assert entries[..i + 1] == entries[..i] + [entries[i]] && fates[..i + 1] == fates[..i] + [fates[i]];
        PurgedSnoc(entries[..i], fates[..i], entries[i], fates[i]);
      }
      assert entries[..|entries|] == entries && fates[..|fates|] == fates;
    }
  }

  function PurgedPaths(entries: seq<JobId>, fates: seq<Outcome>): set<Path>
    requires |fates| == |entries|
  {
    set i | 0 <= i < |entries| && fates[i].applied :: Temp(entries[i])
  }

  lemma PurgedSnoc(entries: seq<JobId>, fates: seq<Outcome>, u: JobId, fate: Outcome)
    requires |fates| == |entries|
    ensures PurgedPaths(entries + [u], fates + [fate])
         == PurgedPaths(entries, fates) + (if fate.applied then {Temp(u)} else {})
  {
    var before, after := PurgedPaths(entries, fates), PurgedPaths(entries + [u], fates + [fate]);
    forall p | p in before ensures p in after {
      var i :| 0 <= i < |entries| && fates[i].applied && Temp(entries[i]) == p;
      assert (entries + [u])[i] == entries[i] && (fates + [fate])[i] == fates[i];
    }
    if fate.applied {
      assert (entries + [u])[|entries|] == u && (fates + [fate])[|entries|] == fate;
    }
    forall p | p in after ensures p in before || (fate.applied && p == Temp(u)) {
      var i :| 0 <= i < |entries + [u]| && (fates + [fate])[i].applied && Temp((entries + [u])[i]) == p;
      if i < |entries| { assert p == Temp(entries[i]) && fates[i].applied; }
    }
  }
}

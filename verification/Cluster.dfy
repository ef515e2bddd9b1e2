/** The whole system as objects, and what happens around one coroutine while it awaits. */
module Cluster {
  import opened Domain
  import opened Protocol
  import opened Adapters

  /** One await: what everybody else does before the call takes effect, and how the call ends. */
  datatype Beat = Beat(
    others: seq<Event>,
    outcome: Outcome,
    found: Option<JobId>,
    result: Option<Transcript>,
    error: string
  )

  /** A call that confirms its effect cannot return normally without it. */
  function Confirm(o: Outcome): (c: Outcome)
    ensures Confirmed(c) && c.raised == o.raised
  {
    if o.raised then o else Outcome(true, false)
  }

  /** The purge at start-up as events: one for each unlink that took effect. */
  function PurgeEvents(entries: seq<JobId>, fates: seq<Outcome>): seq<Event>
    requires |fates| == |entries|
  {
    if entries == [] then []
    else
      var l := |entries| - 1;
      PurgeEvents(entries[..l], fates[..l]) + (if fates[l].applied then [Purge(entries[l])] else [])
  }

  lemma PurgeOne(s: State, gone: set<Path>, u: JobId)
    ensures Next(s.(files := s.files - gone), Purge(u)) == s.(files := s.files - (gone + {Temp(u)}))
  {
    assert s.files - gone - {Temp(u)} == s.files - (gone + {Temp(u)});
  }

  lemma {:induction false} PurgeRun(s: State, entries: seq<JobId>, fates: seq<Outcome>)
    requires |fates| == |entries|
    ensures Run(s, PurgeEvents(entries, fates)) == s.(files := s.files - PurgedPaths(entries, fates))
    decreases |entries|
  {
    if entries == [] {
      assert s.files - PurgedPaths(entries, fates) == s.files;
    } else {
      var l := |entries| - 1;
      var before, gone := PurgeEvents(entries[..l], fates[..l]), PurgedPaths(entries[..l], fates[..l]);
      PurgeRun(s, entries[..l], fates[..l]);
      assert entries == entries[..l] + [entries[l]] && fates == fates[..l] + [fates[l]];
      PurgedSnoc(entries[..l], fates[..l], entries[l], fates[l]);
      if fates[l].applied {
        RunSnoc(s, before, Purge(entries[l]));
        PurgeOne(s, gone, entries[l]);
      } else {
        assert before + [] == before && gone + {} == gone;
      }
    }
  }

  class System {
    const db: Database
    const broker: Broker
    const storage: Storage
    var workers: seq<Handler>
    var pending: multiset<ProgressWrite>
    var uploads: seq<Upload>

    constructor (n: nat)
      ensures fresh(db) && fresh(broker) && fresh(storage) && View() == Init(n)
    {
      db := new Database();
      broker := new Broker();
      storage := new Storage();
      workers := seq(n, i => Idle);
      pending := multiset{};
      uploads := [];
    }

    function View(): State
      reads this, db, broker, storage
    {
      State(db.rows, storage.files, broker.msgs, broker.tags, workers, pending, uploads)
    }

    /** Other coroutines, processes and the broker act; an impossible event is skipped. */
    method Others(es: seq<Event>)
      modifies this, db, broker, storage
      ensures View() == Run(old(View()), es)
    {
      for i := 0 to |es|
        invariant View() == Run(old(View()), es[..i])
      {
        assert es[..i + 1] == es[..i] + [es[i]];
        RunSnoc(old(View()), es[..i], es[i]);
        var t := Next(View(), es[i]);
        db.rows, storage.files, broker.msgs, broker.tags := t.rows, t.files, t.msgs, t.tags;
        workers, pending, uploads := t.workers, t.pending, t.uploads;
      }
      assert es[..|es|] == es;
    }

    /** onModuleInit of the storage service. */
    method OnModuleInit(entries: seq<JobId>, fates: seq<Outcome>)
      requires |fates| == |entries|
      modifies storage
      ensures View() == Run(old(View()), PurgeEvents(entries, fates))
    {
      PurgeRun(View(), entries, fates);
      storage.PurgeStaleTempFiles(entries, fates);
    }
  }
}

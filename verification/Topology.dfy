/**
  * worker/queue_topology.py and its counterpart in the API: what the broker looks like
  * after the declarations, where its messages can go, and when declaring fails.
  */
module Topology {
  /** All exchanges here are declared direct and durable; a broker may hold others. */
  datatype Kind = DirectDurable | OtherKind

  /** The arguments of a durable queue. */
  datatype Arguments = Plain | DeadLetter(exchange: string, key: string)

  datatype Binding = Binding(queue: string, exchange: string, key: string)

  datatype Broker = Broker(exchanges: map<string, Kind>, queues: map<string, Arguments>, bindings: set<Binding>)

  const EMPTY_BROKER := Broker(map[], map[], {})

  datatype Settings = Settings(
    exchange: string,
    dlxExchange: string,
    jobsQueue: string,
    retryQueue: string,
    deadQueue: string
  )

  /** The API's constants, which are also the worker's defaults. */
  const DEFAULTS :=
    Settings("scribeflow", "scribeflow.dlx", "transcription.jobs", "transcription.retry", "transcription.dead")

  datatype Declaration = Exchange(name: string) | Queue(name: string, arguments: Arguments) | Bind(binding: Binding)

  /** Redeclaring with other properties closes the channel; so does binding what is not there. */
  predicate Allowed(b: Broker, d: Declaration) {
    match d
    case Exchange(x) => x in b.exchanges ==> b.exchanges[x] == DirectDurable
    case Queue(q, a) => q in b.queues ==> b.queues[q] == a
    case Bind(k) => k.queue in b.queues && k.exchange in b.exchanges
  }

  function Declared(b: Broker, d: Declaration): Broker {
    match d
    case Exchange(x) => b.(exchanges := b.exchanges[x := DirectDurable])
    case Queue(q, a) => b.(queues := b.queues[q := a])
    case Bind(k) => b.(bindings := b.bindings + {k})
  }

  datatype Result = Result(broker: Broker, raised: bool)

  /** One declaration after the other, up to the first that raises. */
  function DeclareAll(b: Broker, ds: seq<Declaration>): Result
    decreases |ds|
  {
    if ds == [] then Result(b, false)
    else if !Allowed(b, ds[0]) then Result(b, true)
    else DeclareAll(Declared(b, ds[0]), ds[1..])
  }

  function JobsArguments(s: Settings): Arguments {
    DeadLetter(s.dlxExchange, "dead")
  }

  function RetryArguments(s: Settings): Arguments {
    DeadLetter(s.exchange, "job")
  }

  function Declarations(s: Settings): seq<Declaration> {
    [ Exchange(s.exchange),
      Exchange(s.dlxExchange),
      Queue(s.jobsQueue, JobsArguments(s)),
      Bind(Binding(s.jobsQueue, s.exchange, "job")),
      Queue(s.retryQueue, RetryArguments(s)),
      Bind(Binding(s.retryQueue, s.exchange, "retry")),
      Queue(s.deadQueue, Plain),
      Bind(Binding(s.deadQueue, s.dlxExchange, "dead")) ]
  }

  class Channel {
    var exchanges: map<string, Kind>
    var queues: map<string, Arguments>
    var bindings: set<Binding>

    constructor (b: Broker)
      ensures View() == b
    {
      exchanges, queues, bindings := b.exchanges, b.queues, b.bindings;
    }

    function View(): Broker
      reads this
    {
      Broker(exchanges, queues, bindings)
    }

    method DeclareExchange(name: string) returns (raised: bool)
      modifies this
      ensures Result(View(), raised) == DeclareAll(old(View()), [Exchange(name)])
    {
      if name in exchanges && exchanges[name] != DirectDurable { return true; }
      exchanges := exchanges[name := DirectDurable];
      return false;
    }

    method DeclareQueue(name: string, arguments: Arguments) returns (raised: bool)
      modifies this
      ensures Result(View(), raised) == DeclareAll(old(View()), [Queue(name, arguments)])
    {
      if name in queues && queues[name] != arguments { return true; }
      queues := queues[name := arguments];
      return false;
    }

    method Bind(queue: string, exchange: string, key: string) returns (raised: bool)
      modifies this
      ensures Result(View(), raised) == DeclareAll(old(View()), [Declaration.Bind(Binding(queue, exchange, key))])
    {
      if queue !in queues || exchange !in exchanges { return true; }
      bindings := bindings + {Binding(queue, exchange, key)};
      return false;
    }
  }

  lemma DeclareSingle(b: Broker, d: Declaration)
    ensures DeclareAll(b, [d]) == if Allowed(b, d) then Result(Declared(b, d), false) else Result(b, true)
  {
    assert [d][1..] == [];
  }

  lemma DeclareOne(b: Broker, d: Declaration, ds: seq<Declaration>)
    ensures DeclareAll(b, [d]).raised ==> DeclareAll(b, [d] + ds) == DeclareAll(b, [d])
    ensures !DeclareAll(b, [d]).raised ==> DeclareAll(b, [d] + ds) == DeclareAll(DeclareAll(b, [d]).broker, ds)
  {
    assert ([d] + ds)[1..] == ds;
    assert [d][1..] == [];
  }

  method DeclareExchanges(channel: Channel, s: Settings) returns (raised: bool)
    modifies channel
    ensures Result(channel.View(), raised) == DeclareAll(old(channel.View()), Declarations(s)[..2])
  {
    ghost var ds := Declarations(s);
    assert ds[..2] == [ds[0]] + [ds[1]];
    DeclareOne(channel.View(), ds[0], [ds[1]]);
    raised := channel.DeclareExchange(s.exchange);
    if raised { return; }
    raised := channel.DeclareExchange(s.dlxExchange);
  }

  method DeclareAndBind(channel: Channel, queue: string, arguments: Arguments, exchange: string, key: string)
    returns (raised: bool)
    modifies channel
    ensures Result(channel.View(), raised)
         == DeclareAll(old(channel.View()), [Queue(queue, arguments), Bind(Binding(queue, exchange, key))])
  {
    ghost var q, k := Queue(queue, arguments), Bind(Binding(queue, exchange, key));
    assert [q, k] == [q] + [k];
    DeclareOne(channel.View(), q, [k]);
    raised := channel.DeclareQueue(queue, arguments);
    if raised { return; }
    raised := channel.Bind(queue, exchange, key);
  }

  lemma {:induction false} DeclareSplit(b: Broker, ds: seq<Declaration>, es: seq<Declaration>)
    ensures DeclareAll(b, ds).raised ==> DeclareAll(b, ds + es) == DeclareAll(b, ds)
    ensures !DeclareAll(b, ds).raised ==> DeclareAll(b, ds + es) == DeclareAll(DeclareAll(b, ds).broker, es)
    decreases |ds|
  {
    if ds == [] {
      assert ds + es == es;
    } else {
      assert (ds + es)[1..] == ds[1..] + es;
      DeclareSplit(Declared(b, ds[0]), ds[1..], es);
    }
  }

  /** declare_topology: the eight declarations in order. */
  method DeclareTopology(channel: Channel, s: Settings) returns (raised: bool)
    modifies channel
    ensures Result(channel.View(), raised) == DeclareAll(old(channel.View()), Declarations(s))
  {
    ghost var b, ds := channel.View(), Declarations(s);
    DeclareSplit(b, ds[..2], ds[2..4]);
    DeclareSplit(b, ds[..4], ds[4..6]);
    DeclareSplit(b, ds[..6], ds[6..]);
    assert ds[..2] + ds[2..4] == ds[..4] && ds[..4] + ds[4..6] == ds[..6] && ds[..6] + ds[6..] == ds;
    assert ds[2..4] == [Queue(s.jobsQueue, JobsArguments(s)), Bind(Binding(s.jobsQueue, s.exchange, "job"))];
    assert ds[4..6] == [Queue(s.retryQueue, RetryArguments(s)), Bind(Binding(s.retryQueue, s.exchange, "retry"))];
    assert ds[6..] == [Queue(s.deadQueue, Plain), Bind(Binding(s.deadQueue, s.dlxExchange, "dead"))];
    raised := DeclareExchanges(channel, s);
    if raised { return; }
    raised := DeclareAndBind(channel, s.jobsQueue, JobsArguments(s), s.exchange, "job");
    if raised { return; }
    raised := DeclareAndBind(channel, s.retryQueue, RetryArguments(s), s.exchange, "retry");
    if raised { return; }
    raised := DeclareAndBind(channel, s.deadQueue, Plain, s.dlxExchange, "dead");
  }

  /* ---------- what the declarations achieve ---------- */

  predicate ThreeQueues(s: Settings) {
    s.jobsQueue != s.retryQueue && s.jobsQueue != s.deadQueue && s.retryQueue != s.deadQueue
  }

  /** Whatever carries one of the five names already is what would be declared. */
  predicate NoConflict(b: Broker, s: Settings) {
    && (s.exchange in b.exchanges ==> b.exchanges[s.exchange] == DirectDurable)
    && (s.dlxExchange in b.exchanges ==> b.exchanges[s.dlxExchange] == DirectDurable)
    && (s.jobsQueue in b.queues ==> b.queues[s.jobsQueue] == JobsArguments(s))
    && (s.retryQueue in b.queues ==> b.queues[s.retryQueue] == RetryArguments(s))
    && (s.deadQueue in b.queues ==> b.queues[s.deadQueue] == Plain)
  }

  function Complete(b: Broker, s: Settings): Broker {
    Broker(
      b.exchanges[s.exchange := DirectDurable][s.dlxExchange := DirectDurable],
      b.queues[s.jobsQueue := JobsArguments(s)][s.retryQueue := RetryArguments(s)][s.deadQueue := Plain],
      b.bindings + Bindings(s))
  }

  lemma PairOnce(b: Broker, q: string, a: Arguments, k: Binding)
    requires k.queue == q && k.exchange in b.exchanges
    ensures var r := DeclareAll(b, [Queue(q, a), Bind(k)]);
            if Allowed(b, Queue(q, a)) then r == Result(Broker(b.exchanges, b.queues[q := a], b.bindings + {k}), false)
            else r == Result(b, true)
  {
    assert [Queue(q, a), Bind(k)] == [Queue(q, a)] + [Bind(k)];
    DeclareOne(b, Queue(q, a), [Bind(k)]);
    DeclareSingle(b, Queue(q, a));
    DeclareSingle(Declared(b, Queue(q, a)), Bind(k));
  }

  lemma ExchangesOnce(b: Broker, s: Settings)
    ensures var r := DeclareAll(b, Declarations(s)[..2]);
            && (!r.raised <==> Allowed(b, Exchange(s.exchange)) && Allowed(b, Exchange(s.dlxExchange)))
            && (!r.raised ==>
                  r.broker == b.(exchanges := b.exchanges[s.exchange := DirectDurable][s.dlxExchange := DirectDurable]))
  {
    var x, y := Exchange(s.exchange), Exchange(s.dlxExchange);
    assert Declarations(s)[..2] == [x] + [y];
    DeclareOne(b, x, [y]);
    DeclareSingle(b, x);
    DeclareSingle(Declared(b, x), y);
  }

  /** Declaring succeeds exactly when nothing conflicts and the three queues have three names. */
  lemma DeclareSucceedsIff(b: Broker, s: Settings)
    ensures var r := DeclareAll(b, Declarations(s));
            && (!r.raised <==> NoConflict(b, s) && ThreeQueues(s))
            && (!r.raised ==> r.broker == Complete(b, s))
  {
    var ds := Declarations(s);
    DeclareSplit(b, ds[..2], ds[2..]);
    assert ds[..2] + ds[2..] == ds;
    ExchangesOnce(b, s);
    if !DeclareAll(b, ds[..2]).raised {
      var b2 := DeclareAll(b, ds[..2]).broker;
      var jobs, retry, dead := Binding(s.jobsQueue, s.exchange, "job"), Binding(s.retryQueue, s.exchange, "retry"),
                               Binding(s.deadQueue, s.dlxExchange, "dead");
      QueuesIff(b2, s, jobs, retry, dead);
      assert ds[2..] == [Queue(s.jobsQueue, JobsArguments(s)), Bind(jobs),
                         Queue(s.retryQueue, RetryArguments(s)), Bind(retry),
                         Queue(s.deadQueue, Plain), Bind(dead)];
    }
  }

  lemma QueuesIff(b: Broker, s: Settings, jobs: Binding, retry: Binding, dead: Binding)
    requires s.exchange in b.exchanges && s.dlxExchange in b.exchanges
    requires jobs.queue == s.jobsQueue && retry.queue == s.retryQueue && dead.queue == s.deadQueue
    requires jobs.exchange == retry.exchange == s.exchange && dead.exchange == s.dlxExchange
    ensures var r := DeclareAll(b, [Queue(s.jobsQueue, JobsArguments(s)), Bind(jobs),
                                    Queue(s.retryQueue, RetryArguments(s)), Bind(retry),
                                    Queue(s.deadQueue, Plain), Bind(dead)]);
            && (!r.raised <==>
                 && (s.jobsQueue in b.queues ==> b.queues[s.jobsQueue] == JobsArguments(s))
                 && (s.retryQueue in b.queues ==> b.queues[s.retryQueue] == RetryArguments(s))
                 && (s.deadQueue in b.queues ==> b.queues[s.deadQueue] == Plain)
                 && ThreeQueues(s))
            && (!r.raised ==> r.broker == Broker(b.exchanges,
                  b.queues[s.jobsQueue := JobsArguments(s)][s.retryQueue := RetryArguments(s)][s.deadQueue := Plain],
                  b.bindings + {jobs, retry, dead}))
  {
    var d1, d2, d3 := [Queue(s.jobsQueue, JobsArguments(s)), Bind(jobs)],
                      [Queue(s.retryQueue, RetryArguments(s)), Bind(retry)],
                      [Queue(s.deadQueue, Plain), Bind(dead)];
    assert JobsArguments(s).key[0] != RetryArguments(s).key[0];
    DeclareSplit(b, d1, d2 + d3);
    assert d1 + (d2 + d3) == [d1[0], d1[1], d2[0], d2[1], d3[0], d3[1]];
    PairOnce(b, s.jobsQueue, JobsArguments(s), jobs);
    var b1 := DeclareAll(b, d1).broker;
    DeclareSplit(b1, d2, d3);
    PairOnce(b1, s.retryQueue, RetryArguments(s), retry);
    var b2 := DeclareAll(b1, d2).broker;
    PairOnce(b2, s.deadQueue, Plain, dead);
    assert b.bindings + {jobs} + {retry} + {dead} == b.bindings + {jobs, retry, dead};
  }

  /** Declaring again, as every worker start and every reconnect does, changes nothing. */
  lemma DeclareIdempotent(b: Broker, s: Settings)
    requires !DeclareAll(b, Declarations(s)).raised
    ensures var r := DeclareAll(b, Declarations(s)); DeclareAll(r.broker, Declarations(s)) == r
  {
    DeclareSucceedsIff(b, s);
    DeclareSucceedsIff(Complete(b, s), s);
    assert JobsArguments(s).key[0] != RetryArguments(s).key[0];
    assert Complete(Complete(b, s), s) == Complete(b, s);
  }

  function Bindings(s: Settings): set<Binding> {
    {Binding(s.jobsQueue, s.exchange, "job"), Binding(s.retryQueue, s.exchange, "retry"),
     Binding(s.deadQueue, s.dlxExchange, "dead")}
  }

  lemma BindingsTellSettings(s: Settings, t: Settings)
    requires Bindings(s) <= Bindings(t)
    ensures s == t
  {
    DistinctKeys();
    assert Binding(s.jobsQueue, s.exchange, "job") in Bindings(t);
    assert Binding(s.retryQueue, s.exchange, "retry") in Bindings(t);
    assert Binding(s.deadQueue, s.dlxExchange, "dead") in Bindings(t);
  }

  /**
    * Against a broker set up by the API, the worker's declarations succeed and add nothing
    * exactly when its settings name the same five things.
    */
  lemma InSyncIff(s: Settings)
    ensures var api := DeclareAll(EMPTY_BROKER, Declarations(DEFAULTS));
            && !api.raised
            && (DeclareAll(api.broker, Declarations(s)) == api <==> s == DEFAULTS)
  {
    var api := DeclareAll(EMPTY_BROKER, Declarations(DEFAULTS));
    DistinctDefaults();
    FreshSucceeds(DEFAULTS);
    if s == DEFAULTS {
      DeclareIdempotent(EMPTY_BROKER, DEFAULTS);
    } else if DeclareAll(api.broker, Declarations(s)) == api {
      DeclareAddsBindings(api.broker, s);
      BindingsTellSettings(s, DEFAULTS);
    }
  }

  lemma FreshSucceeds(s: Settings)
    requires ThreeQueues(s)
    ensures var r := DeclareAll(EMPTY_BROKER, Declarations(s)); !r.raised && r.broker.bindings == Bindings(s)
  {
    DeclareSucceedsIff(EMPTY_BROKER, s);
  }

  lemma DeclareAddsBindings(b: Broker, s: Settings)
    requires !DeclareAll(b, Declarations(s)).raised
    ensures DeclareAll(b, Declarations(s)).broker.bindings == b.bindings + Bindings(s)
  {
    DeclareSucceedsIff(b, s);
  }

  lemma DistinctDefaults()
    ensures ThreeQueues(DEFAULTS)
  {
    assert DEFAULTS.jobsQueue[14] != DEFAULTS.retryQueue[14];
    assert DEFAULTS.jobsQueue[14] != DEFAULTS.deadQueue[14];
    assert DEFAULTS.retryQueue[14] != DEFAULTS.deadQueue[14];
  }

  lemma DistinctKeys()
    ensures "job" != "retry" && "job" != "dead" && "retry" != "dead"
  {
    assert "job"[0] != "retry"[0] && "job"[0] != "dead"[0] && "retry"[0] != "dead"[0];
  }

  /* ---------- routing ---------- */

  /** The queues a published message reaches. */
  function Route(b: Broker, exchange: string, key: string): set<string> {
    set k | k in b.bindings && k.exchange == exchange && k.key == key :: k.queue
  }

  /** The queues a rejected or expired message reaches. */
  function DeadLettered(b: Broker, queue: string): set<string> {
    if queue in b.queues && b.queues[queue].DeadLetter?
    then Route(b, b.queues[queue].exchange, b.queues[queue].key)
    else {}
  }

  /**
    * The only journeys a message has: published jobs to the jobs queue, retry copies to the
    * retry queue, dead copies to the dead queue; rejected from jobs to dead, expired in retry
    * back to jobs, and nothing leaves the dead queue.  It holds even if both exchanges share a name.
    */
  lemma Journeys(s: Settings)
    requires ThreeQueues(s)
    ensures var r := DeclareAll(EMPTY_BROKER, Declarations(s));
            && !r.raised
            && Route(r.broker, s.exchange, "job") == {s.jobsQueue}
            && Route(r.broker, s.exchange, "retry") == {s.retryQueue}
            && Route(r.broker, s.dlxExchange, "dead") == {s.deadQueue}
            && DeadLettered(r.broker, s.jobsQueue) == {s.deadQueue}
            && DeadLettered(r.broker, s.retryQueue) == {s.jobsQueue}
            && DeadLettered(r.broker, s.deadQueue) == {}
  {
    DeclareSucceedsIff(EMPTY_BROKER, s);
    DistinctKeys();
    var b := Complete(EMPTY_BROKER, s);
    assert Binding(s.jobsQueue, s.exchange, "job") in b.bindings;
    assert Binding(s.retryQueue, s.exchange, "retry") in b.bindings;
    assert Binding(s.deadQueue, s.dlxExchange, "dead") in b.bindings;
  }
}

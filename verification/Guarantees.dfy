/** What holds of every reachable state, in one place. */
module Guarantees {
  import opened Protocol
  import opened Wellformed
  import opened RowConsistency
  import opened NoLoss
  import opened BoundedWork
  import opened NoStuck
  import opened Uploads

  ghost predicate Reachable(n: nat, s: State) {
    exists es :: s == Run(Init(n), es)
  }

  lemma RunReachable(n: nat, s: State, es: seq<Event>)
    requires Reachable(n, s)
    ensures Reachable(n, Run(s, es))
  {
    var before :| s == Run(Init(n), before);
    RunConcat(Init(n), before, es);
  }

  ghost predicate Guaranteed(n: nat, s: State) {
    && Wf(s)
    && Consistent(s)
    && NothingLost(s)
    && WorkBounded(s)
    && ValidOnly(s)
    && (n <= 1 ==> NoneStuck(s))
  }

  lemma ReachableGuaranteed(n: nat, s: State)
    requires Reachable(n, s)
    ensures Guaranteed(n, s)
  {
    var es :| s == Run(Init(n), es);
    WfAlways(n, es);
    ConsistentAlways(n, es);
    NothingLostAlways(n, es);
    WorkBoundedAlways(n, es);
    ValidOnlyAlways(n, es);
    if n <= 1 { NeverStuck(n, es); }
  }

  /** From a state that some number of workers can reach, a program keeps every guarantee for that number. */
  ghost predicate Keeps(before: State, after: State) {
    forall n :: Reachable(n, before) ==> Guaranteed(n, after)
  }

  lemma RunKeeps(s: State, es: seq<Event>)
    ensures Keeps(s, Run(s, es))
  {
    forall n | Reachable(n, s) ensures Guaranteed(n, Run(s, es)) {
      RunReachable(n, s, es);
      ReachableGuaranteed(n, Run(s, es));
    }
  }
}

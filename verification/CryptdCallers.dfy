/** What callers of cryptd must know. */
module CryptdCallers {
  import opened Options
  import opened CryptoQueue
  import opened Cryptd
  import opened CryptdSteps
  import opened CryptdTheorems

  /** The requests that were refused and have not been given their callback anew since, as their callers see it:
      `stale` at first, and then by the steps of the run. */
  function Stale(s: State, steps: seq<Step>, stale: set<Id>): set<Id>
    requires Runs(s, steps)
    decreases |steps|
  {
    if steps == [] then stale
    else Stale(Apply(s, steps[0]), steps[1..], After(s, steps[0], stale))
  }

  function After(s: State, e: Step, stale: set<Id>): set<Id> {
    match e
    case SetCallback(x) => stale - {x}
    case Submit(x, mayBacklog) => if |s.q.list| < s.q.maxQlen || mayBacklog then stale else stale + {x}
    case _ => stale
  }

  /** No request is taken by the queue that was refused before and has not been given its callback anew. */
  predicate Careful(s: State, steps: seq<Step>, stale: set<Id>)
    requires Runs(s, steps)
    decreases |steps|
  {
    steps != [] ==>
      && (steps[0].Submit? && (|s.q.list| < s.q.maxQlen || steps[0].mayBacklog) ==> steps[0].id !in stale)
      && Careful(Apply(s, steps[0]), steps[1..], After(s, steps[0], stale))
  }

  ghost predicate Tied(s: State, stale: set<Id>) {
    && (forall x :: Idle(s, x) ==> (x in s.hooks.swapped <==> x in stale))
    && (forall x :: InFlight(s, x) && x in stale ==> x in s.hooks.trapped)
  }

  lemma StepTied(s: State, e: Step, stale: set<Id>)
    requires Inv(s) && Tied(s, stale) && Enabled(s, e)
    ensures Tied(Apply(s, e), After(s, e, stale))
  {
    hide InOrder, Notices, Waiting, NoticeDue;
    match e
    case SetCallback(_) =>
    case Submit(x, mayBacklog) => EnqueueAccurate(s.q, x, mayBacklog);
    case Fetch => DequeueAccurate(s.q);
    case Notify =>
    case Finish =>
  }

  lemma {:induction false} RunTied(s: State, steps: seq<Step>, stale: set<Id>)
    requires Inv(s) && Tied(s, stale) && Runs(s, steps)
    ensures Tied(Run(s, steps), Stale(s, steps, stale))
    ensures Heedful(s, steps) <==> Careful(s, steps, stale)
    decreases |steps|
  {
    if steps != [] {
      StepKeeps(s, steps[0]);
      StepTied(s, steps[0], stale);
      SeesSwapped(s, steps[0], stale);
      hide Inv, Tied, Apply, Enabled, After;
      RunTied(Apply(s, steps[0]), steps[1..], After(s, steps[0], stale));
    }
  }

  lemma SeesSwapped(s: State, e: Step, stale: set<Id>)
    requires Inv(s) && Tied(s, stale) && Enabled(s, e)
    ensures s.q.qlen == |s.q.list|
    ensures e.Submit? ==> (e.id in s.hooks.swapped <==> e.id in stale)
  {
    hide InOrder, Notices, Waiting, NoticeDue;
  }

  lemma InitTied(maxQlen: nat)
    ensures Inv(Init(maxQlen)) && Tied(Init(maxQlen), {})
  {
    hide *;
    InitUntrapped(maxQlen);
    NobodyYet(maxQlen);
  }

  lemma NobodyYet(maxQlen: nat)
    ensures Tied(Init(maxQlen), {})
  {
  }

  /** A request that is not in flight has the worker's own completion function exactly when it was refused and has
      not been given its callback anew; completion gives back what the submission took. */
  lemma CarriesExactly(maxQlen: nat, steps: seq<Step>, x: Id)
    requires Runs(Init(maxQlen), steps) && Idle(Run(Init(maxQlen), steps), x)
    ensures x in Run(Init(maxQlen), steps).hooks.swapped <==> x in Stale(Init(maxQlen), steps, {})
  {
    hide Run, Runs, Stale, Inv, Init, Idle;
    InitTied(maxQlen);
    RunTied(Init(maxQlen), steps, {});
  }

  /** Everything accepted can be completed by the worker alone if and only if no request is taken that was refused
      before and has not been given its callback anew. */
  lemma CompletedIffCareful(maxQlen: nat, steps: seq<Step>)
    requires Runs(Init(maxQlen), steps)
    ensures CanRest(Run(Init(maxQlen), steps)) <==> Careful(Init(maxQlen), steps, {})
  {
    hide *;
    InitTied(maxQlen);
    RunTied(Init(maxQlen), steps, {});
    CompletedExactly(maxQlen, steps);
  }
}

/** Guarantees of cryptd. */
module CryptdTheorems {
  import opened Options
  import opened Lists
  import opened CryptoQueue
  import opened Cryptd
  import opened CryptdSteps

  ghost predicate Reachable(s: State) {
    exists maxQlen: nat, steps: seq<Step> :: Runs(Init(maxQlen), steps) && Run(Init(maxQlen), steps) == s
  }

  lemma ReachableInv(s: State)
    requires Reachable(s)
    ensures Inv(s)
  {
    var maxQlen: nat, steps: seq<Step> :| Runs(Init(maxQlen), steps) && Run(Init(maxQlen), steps) == s;
    RunKeeps(Init(maxQlen), steps);
  }

  // ----- what the callers see -----

  /** Submissions are run once each, in the order in which they were accepted. */
  lemma RunOnceInOrder(s: State)
    requires Reachable(s)
    ensures s.log.done <= Ids(s.log.accepted)
  {
    ReachableInv(s);
  }

  /** Those who were answered -EBUSY get -EINPROGRESS once each, in order and before their request
      is run; nobody else does. */
  lemma ToldOnceBefore(s: State)
    requires Reachable(s)
    ensures |s.log.done| <= |s.log.accepted|
    ensures Waiters(s.log.accepted[..|s.log.done|]) <= s.log.told <= Waiters(s.log.accepted)
  {
    ReachableInv(s);
    var a := s.log.accepted;
    assert |a| == |Ids(a)|;
    assert a[..|a|] == a;
    WaitersGrow(a, Admitted(s), |a|);
    WaitersGrow(a, |s.log.done|, Admitted(s));
    if s.worker.owed == None {
      assert s.log.told + [] == s.log.told;
    } else {
      var w := Waiters(a[..Admitted(s)]);
      assert w[..|w| - 1] == s.log.told;
    }
  }

  /** The pointer marks index max_qlen, and the length never exceeds it for those who would not wait. */
  lemma PointerExact(s: State)
    requires Reachable(s)
    ensures s.q.backlog == Entry(s.q.list, s.q.maxQlen) && s.q.qlen == |s.q.list|
    ensures forall i :: |s.log.done| + |Links(s.worker.held)| + s.q.maxQlen <= i < |s.log.accepted| ==>
      s.log.accepted[i].busy
  {
    ReachableInv(s);
    assert |s.log.accepted| == |Ids(s.log.accepted)|;
  }

  /** When the worker rests, everything accepted has run and everyone told to wait has been told. */
  lemma AtRest(s: State)
    requires Reachable(s) && s.q.qlen == 0 && s.worker.held == None
    ensures s.log.done == Ids(s.log.accepted) && s.log.told == Waiters(s.log.accepted)
  {
    ReachableInv(s);
    var a := s.log.accepted;
    assert |a| == |Ids(a)|;
    assert a[..|a|] == a;
    assert s.log.told + [] == s.log.told && s.log.done + [] + [] == s.log.done;
  }

  // ----- completion functions -----

  predicate InFlight(s: State, x: Id) { x in s.q.list || s.worker.held == Some(x) }

  /** Whether the queue takes a submission. */
  predicate Takes(q: Q, mayBacklog: bool) { q.qlen < q.maxQlen || mayBacklog }

  /** Every submission that the queue takes comes with the caller's own completion function. */
  predicate Heedful(s: State, steps: seq<Step>)
    requires Runs(s, steps)
    decreases |steps|
  {
    steps != [] ==>
      && (steps[0].Submit? && Takes(s.q, steps[0].mayBacklog) ==> steps[0].id !in s.hooks.swapped)
      && Heedful(Apply(s, steps[0]), steps[1..])
  }

  /** Nothing in flight is trapped, nor is the one who is owed a notice, who is in flight as well. */
  predicate Untrapped(s: State) {
    && (forall x :: InFlight(s, x) ==> x !in s.hooks.trapped)
    && OwedInFlight(s)
  }

  predicate OwedInFlight(s: State) { s.worker.owed != None ==> InFlight(s, s.worker.owed.value) }

  lemma StepOwed(s: State, e: Step)
    requires Inv(s) && OwedInFlight(s) && Enabled(s, e)
    ensures OwedInFlight(Apply(s, e))
  {
    hide InOrder, Notices, Waiting, NoticeDue;
    match e
    case SetCallback(_) =>
    case Submit(x, mayBacklog) => EnqueueAccurate(s.q, x, mayBacklog);
    case Fetch => DequeueAccurate(s.q);
    case Notify =>
    case Finish =>
  }

  /** Who is in flight after a step was so before, or was just taken. */
  lemma StepInFlight(s: State, e: Step, x: Id)
    requires Inv(s) && Enabled(s, e) && InFlight(Apply(s, e), x)
    ensures InFlight(s, x) || (e.Submit? && e.id == x && Takes(s.q, e.mayBacklog))
    ensures x in Apply(s, e).hooks.trapped ==>
      x in s.hooks.trapped || (e.Submit? && e.id == x && x in s.hooks.swapped)
    ensures e.Submit? && e.id == x ==> !InFlight(s, x)
    ensures e.Submit? && e.id == x && x !in s.hooks.swapped ==> x !in Apply(s, e).hooks.trapped
  {
    hide InOrder, Notices, Waiting, NoticeDue;
    match e
    case SetCallback(_) =>
    case Submit(y, mayBacklog) => EnqueueAccurate(s.q, y, mayBacklog);
    case Fetch => DequeueAccurate(s.q);
    case Notify =>
    case Finish =>
  }

  lemma StepUntrapped(s: State, e: Step)
    requires Inv(s) && Untrapped(s) && Enabled(s, e)
    requires e.Submit? && Takes(s.q, e.mayBacklog) ==> e.id !in s.hooks.swapped
    ensures Untrapped(Apply(s, e))
  {
    hide Inv, Apply, Enabled;
    StepOwed(s, e);
    forall x | InFlight(Apply(s, e), x) ensures x !in Apply(s, e).hooks.trapped {
      StepInFlight(s, e, x);
    }
  }

  lemma TakenIsTrapped(s: State, x: Id, mayBacklog: bool)
    requires Inv(s) && Idle(s, x) && Takes(s.q, mayBacklog) && x in s.hooks.swapped
    ensures InFlight(Submitted(s, x, mayBacklog), x) && x in Submitted(s, x, mayBacklog).hooks.trapped
  {
    EnqueueAccurate(s.q, x, mayBacklog);
  }

  lemma CaughtStep(s: State, x: Id, e: Step)
    requires Inv(s) && InFlight(s, x) && x in s.hooks.trapped && Enabled(s, e)
    ensures InFlight(Apply(s, e), x) && x in Apply(s, e).hooks.trapped
  {
    match e
    case SetCallback(_) =>
    case Submit(y, mayBacklog) => EnqueueAccurate(s.q, y, mayBacklog);
    case Fetch => DequeueAccurate(s.q);
    case Notify =>
    case Finish =>
  }

  /** A trapped request is never completed. */
  lemma {:induction false} CaughtForGood(s: State, x: Id, steps: seq<Step>)
    requires Inv(s) && InFlight(s, x) && x in s.hooks.trapped && Runs(s, steps)
    ensures InFlight(Run(s, steps), x) && x in Run(s, steps).hooks.trapped
    decreases |steps|
  {
    if steps != [] {
      StepKeeps(s, steps[0]);
      CaughtStep(s, x, steps[0]);
      CaughtForGood(Apply(s, steps[0]), x, steps[1..]);
    }
  }

  /** A run traps somebody exactly when a submission is taken that carries the worker's function. */
  lemma {:induction false} TrappedExactly(s: State, steps: seq<Step>)
    requires Inv(s) && Untrapped(s) && Runs(s, steps)
    ensures Inv(Run(s, steps))
    ensures Untrapped(Run(s, steps)) <==> Heedful(s, steps)
    decreases |steps|
  {
    if steps != [] {
      var e := steps[0];
      StepKeeps(s, e);
      if e.Submit? && Takes(s.q, e.mayBacklog) && e.id in s.hooks.swapped {
        TakenIsTrapped(s, e.id, e.mayBacklog);
        CaughtForGood(Apply(s, e), e.id, steps[1..]);
        RunKeeps(Apply(s, e), steps[1..]);
      } else {
        StepUntrapped(s, e);
        hide Inv, Untrapped, Apply, Enabled;
        TrappedExactly(Apply(s, e), steps[1..]);
      }
    }
  }

  // ----- whether everything accepted is completed -----

  /** Steps of the worker alone. */
  predicate WorkerOnly(steps: seq<Step>) {
    forall i :: 0 <= i < |steps| ==> steps[i] == Fetch || steps[i] == Notify || steps[i] == Finish
  }

  predicate Resting(s: State) { s.q.qlen == 0 && s.worker.held == None }

  /** The step the worker takes next. */
  function NextStep(s: State): Step {
    if s.worker.held == None then Fetch else if s.worker.owed != None then Notify else Finish
  }

  function WorkLeft(s: State): nat {
    3 * s.q.qlen + |Links(s.worker.owed)| + |Links(s.worker.held)|
  }

  lemma WorkerCanGo(s: State)
    requires Inv(s) && Untrapped(s) && !Resting(s)
    ensures Enabled(s, NextStep(s)) && WorkLeft(Apply(s, NextStep(s))) < WorkLeft(s)
  {
    hide InOrder, Notices, Waiting, NoticeDue;
    DequeueAccurate(s.q);
  }

  /** Left to itself the worker completes everything, if nobody is trapped. */
  lemma {:induction false} WorkerDrains(s: State) returns (steps: seq<Step>)
    requires Inv(s) && Untrapped(s)
    ensures Runs(s, steps) && WorkerOnly(steps) && Resting(Run(s, steps))
    decreases WorkLeft(s)
  {
    if Resting(s) {
      steps := [];
    } else {
      var e := NextStep(s);
      WorkerCanGo(s);
      StepKeeps(s, e);
      StepUntrapped(s, e);
      hide Inv, Untrapped, Apply, Enabled;
      var rest := WorkerDrains(Apply(s, e));
      steps := [e] + rest;
      assert steps[1..] == rest;
    }
  }

  ghost predicate CanRest(s: State) {
    exists more :: Runs(s, more) && WorkerOnly(more) && Resting(Run(s, more))
  }

  lemma InitUntrapped(maxQlen: nat)
    ensures Inv(Init(maxQlen)) && Untrapped(Init(maxQlen))
  {
  }

  /** After any run, everything that was accepted can still be completed, by the worker alone, if and
      only if every submission that was taken came with the caller's own completion function. */
  lemma CompletedExactly(maxQlen: nat, steps: seq<Step>)
    requires Runs(Init(maxQlen), steps)
    ensures CanRest(Run(Init(maxQlen), steps)) <==> Heedful(Init(maxQlen), steps)
  {
    hide Inv, Init;
    var s := Run(Init(maxQlen), steps);
    InitUntrapped(maxQlen);
    TrappedExactly(Init(maxQlen), steps);
    if Untrapped(s) {
      var more := WorkerDrains(s);
    } else {
      RunOwed(maxQlen, steps);
      var x :| InFlight(s, x) && x in s.hooks.trapped;
      forall more | Runs(s, more) ensures !Resting(Run(s, more)) {
        CaughtForGood(s, x, more);
        RunKeeps(s, more);
        NotResting(Run(s, more), x);
      }
    }
  }

  lemma RunOwed(maxQlen: nat, steps: seq<Step>)
    requires Runs(Init(maxQlen), steps)
    ensures OwedInFlight(Run(Init(maxQlen), steps))
  {
    InitUntrapped(maxQlen);
    OwedKept(Init(maxQlen), steps);
  }

  lemma {:induction false} OwedKept(s: State, steps: seq<Step>)
    requires Inv(s) && OwedInFlight(s) && Runs(s, steps)
    ensures OwedInFlight(Run(s, steps))
    decreases |steps|
  {
    if steps != [] {
      StepKeeps(s, steps[0]);
      StepOwed(s, steps[0]);
      hide Inv, OwedInFlight, Apply, Enabled;
      OwedKept(Apply(s, steps[0]), steps[1..]);
    }
  }

  lemma NotResting(s: State, x: Id)
    requires Inv(s) && InFlight(s, x)
    ensures !Resting(s)
  {
  }

  /** The worker is never stopped by a completion function, in every run of heedful callers. */
  lemma WorkerGoesOn(maxQlen: nat, steps: seq<Step>)
    requires Runs(Init(maxQlen), steps) && Heedful(Init(maxQlen), steps)
    ensures
      var s := Run(Init(maxQlen), steps);
      s.q.qlen > 0 || s.worker.held != None ==> Enabled(s, NextStep(s))
  {
    hide Run, Runs, Heedful, Inv, Untrapped, Init;
    InitUntrapped(maxQlen);
    TrappedExactly(Init(maxQlen), steps);
    if !Resting(Run(Init(maxQlen), steps)) {
      WorkerCanGo(Run(Init(maxQlen), steps));
    }
  }

  /** A caller that was refused and submits again at once, without setting the callback, is caught:
      the worker's own function stands where the caller's should. */
  lemma RefusedThenCaught(s: State, x: Id)
    requires Reachable(s) && s.q.qlen >= s.q.maxQlen && Idle(s, x)
    ensures
      var t := Submitted(s, x, false);
      && t.log == s.log && t.q == s.q && Idle(t, x)
      && var u := Submitted(t, x, true);
      InFlight(u, x) && x in u.hooks.trapped
  {
  }

  /** The first `k` requests are queued, and no other has been submitted. */
  predicate Filling(s: State, k: nat) {
    && s.q.list == seq(k, i => i) && s.q.qlen == k <= s.q.maxQlen && s.worker.held == None
    && s.hooks.trapped == {} && forall x :: x in s.hooks.swapped ==> x < k
  }

  /** Such a run, for a queue of any length: it is filled, the next request is refused, and taken when it
      agrees to wait. */
  lemma TrappedRun(maxQlen: nat) returns (steps: seq<Step>)
    ensures Runs(Init(maxQlen), steps) && !Heedful(Init(maxQlen), steps)
    ensures
      var s := Run(Init(maxQlen), steps);
      s.q.list == seq(maxQlen + 1, i => i) && maxQlen in s.hooks.trapped
  {
    hide Runs, Heedful, Run;
    steps := TrappedFrom(Init(maxQlen), 0);
  }

  lemma {:induction false} TrappedFrom(s: State, k: nat) returns (steps: seq<Step>)
    requires Filling(s, k)
    ensures Runs(s, steps) && !Heedful(s, steps)
    ensures
      var t := Run(s, steps);
      t.q.list == seq(s.q.maxQlen + 1, i => i) && s.q.maxQlen in t.hooks.trapped
    decreases s.q.maxQlen - k
  {
    if k == s.q.maxQlen {
      steps := FullTraps(s, k);
    } else {
      hide Runs, Run, Heedful;
      FillOne(s, k);
      var rest := TrappedFrom(Submitted(s, k, false), k + 1);
      RunFirst(s, Submit(k, false), rest);
      steps := [Submit(k, false)] + rest;
    }
  }

  lemma FillOne(s: State, k: nat)
    requires Filling(s, k) && k < s.q.maxQlen
    ensures Enabled(s, Submit(k, false)) && Filling(Submitted(s, k, false), k + 1)
    ensures Submitted(s, k, false).q.maxQlen == s.q.maxQlen
  {
    assert seq(k, i => i) + [k] == seq(k + 1, i => i);
  }

  lemma RunFirst(s: State, e: Step, rest: seq<Step>)
    requires Enabled(s, e) && Runs(Apply(s, e), rest) && !Heedful(Apply(s, e), rest)
    ensures Runs(s, [e] + rest) && !Heedful(s, [e] + rest) && Run(s, [e] + rest) == Run(Apply(s, e), rest)
  {
    hide Apply, Enabled;
    assert ([e] + rest)[1..] == rest;
  }

  lemma LastTraps(t: State, k: nat)
    requires Enabled(t, Submit(k, true)) && k in t.hooks.swapped
    ensures Runs(t, [Submit(k, true)]) && !Heedful(t, [Submit(k, true)])
    ensures Run(t, [Submit(k, true)]) == Submitted(t, k, true)
  {
    var steps := [Submit(k, true)];
    assert steps[0] == Submit(k, true) && steps[1..] == [];
    assert Runs(Apply(t, steps[0]), steps[1..]);
    assert Runs(t, steps);
  }

  lemma FullTraps(s: State, k: nat) returns (steps: seq<Step>)
    requires Filling(s, k) && k == s.q.maxQlen
    ensures Runs(s, steps) && !Heedful(s, steps)
    ensures var t := Run(s, steps); t.q.list == seq(k + 1, i => i) && k in t.hooks.trapped
  {
    var t, e0, e1 := Submitted(s, k, false), Submit(k, false), Submit(k, true);
    assert t.q == s.q && k in t.hooks.swapped;
    assert seq(k, i => i) + [k] == seq(k + 1, i => i);
    LastTraps(t, k);
    hide Runs, Run, Heedful;
    RunFirst(s, e0, [e1]);
    steps := [e0] + [e1];
  }
}

/** Guarantees of async_chainiv. */
module ChainIvTheorems {
  import opened ChainIv
  import opened ChainIvSteps

  ghost predicate Reachable(iv0: Iv, s: State) {
    exists run :: Runs(Init(iv0), run, s)
  }

  lemma ReachableInv(iv0: Iv, s: State)
    requires Reachable(iv0, s)
    ensures Inv(s) && Logged(s)
  {
    hide Inv, Logged;
    var run :| Runs(Init(iv0), run, s);
    InitInv(iv0);
    RunInv(Init(iv0), run, s);
    RunLogged(Init(iv0), run, s);
  }

  lemma InitInv(iv0: Iv)
    ensures Inv(Init(iv0)) && Logged(Init(iv0))
  {
  }

  // ----- theorems -----

  /** ctx->iv and ctx->err are accessed, and the work item is scheduled, only by the owner of
      the INUSE bit; there is at most one, and none while the work item waits to run. */
  lemma MutualExclusion(iv0: Iv, s: State, a: Agent, b: Agent)
    requires Reachable(iv0, s) && a in s.pcs && b in s.pcs && Owns(s.pcs[a]) && Owns(s.pcs[b])
    ensures a == b && s.m.inuse && !s.m.pending
  {
    ReachableInv(iv0, s);
  }

  /** BUG_ON(!queued) never fires: the work item is not pending when it is scheduled. */
  lemma ScheduledOnce(iv0: Iv, s: State, a: Agent)
    requires Reachable(iv0, s) && a in s.pcs && s.pcs[a].line == SCHED5
    ensures !s.m.pending
  {
    ReachableInv(iv0, s);
  }

  /** Each generated IV is what the last seeding or successful encryption left. */
  lemma IvsChained(iv0: Iv, s: State, k: nat)
    requires Reachable(iv0, s) && k < |s.events| && s.events[k].Served?
    ensures s.events[k].used == LastIv(s.events[..k])
  {
    ReachableInv(iv0, s);
  }

  /** A caller returns with the result of its own encryption, or of queueing its own request, or
      of its own attempt to seed; a queued request is completed with the result of its own
      encryption. */
  lemma OwnResults(iv0: Iv, s: State)
    requires Reachable(iv0, s)
    ensures forall r :: r in s.r.returned ==> Justified(s.events, s.j.accepted, r, s.r.returned[r])
    ensures forall r :: r in s.r.completed ==> ServedWith(s.events, r, s.r.completed[r])
  {
    ReachableInv(iv0, s);
  }

  /** A caller that queues its request is answered -EBUSY exactly when 100 requests are queued already, otherwise
      -EINPROGRESS; it is left out exactly when it then may not backlog, and comes last otherwise. */
  lemma AnswerExact(s: State, r: nat, c: Choice)
    requires Caller(r) in s.pcs && s.pcs[Caller(r)].line == POST0
    ensures
      var s1 := Apply(s, Act(Caller(r), c));
      && r in s1.r.owed && (s1.r.owed[r] == -16 <==> |s.m.queue| >= 100)
      && (s1.r.owed[r] == -115 <==> |s.m.queue| < 100)
      && s1.m.queue == s.m.queue + (if |s.m.queue| >= 100 && !c.backlog then [] else [r])
      && s1.m.inuse == s.m.inuse && s1.m.iv == s.m.iv && s1.events == s.events
  {
  }

  /** No overtaking: with the bit in hand a caller goes on to encrypt exactly when every request accepted so far has
      been taken from the queue, and otherwise gives up the bit and queues its own. */
  lemma NoOvertaking(iv0: Iv, s: State, r: nat, c: Choice)
    requires Reachable(iv0, s) && Caller(r) in s.pcs && s.pcs[Caller(r)].line == GIV1
    ensures
      var line := Apply(s, Act(Caller(r), c)).pcs[Caller(r)].line;
      line == if s.j.accepted == s.j.taken then TAIL0 else GIV2
  {
    ReachableInv(iv0, s);
    QueueIsRest(s);
    hide Inv, Logged;
  }

  /** Whoever leaves schedules the work, still holding the bit, exactly when some accepted request has not been
      taken. */
  lemma SchedulesTheRest(iv0: Iv, s: State, a: Agent, c: Choice)
    requires Reachable(iv0, s) && a in s.pcs && s.pcs[a].line == SCHED1
    ensures
      var line := Apply(s, Act(a, c)).pcs[a].line;
      line == if s.j.accepted == s.j.taken then SCHED2 else SCHED5
  {
    ReachableInv(iv0, s);
    QueueIsRest(s);
    hide Inv, Logged;
  }

  lemma QueueIsRest(s: State)
    requires Inv(s)
    ensures s.m.queue == [] <==> s.j.accepted == s.j.taken
  {
    hide Owned, Attended, Chained, Named, Honest;
    assert s.m.queue == [] ==> s.j.taken + s.m.queue == s.j.taken;
  }

  /** No agent is active and the work item is not pending. */
  predicate Quiescent(s: State) { s.pcs == map[] && !s.m.pending }

  /** At quiescence the bit is clear, every caller has returned, every request taken from the
      queue was completed, and the queue is empty exactly when the bit was not last released
      by a failed seeding with requests queued. */
  lemma AtQuiescence(iv0: Iv, s: State)
    requires Reachable(iv0, s) && Quiescent(s)
    ensures !s.m.inuse
    ensures s.m.queue == [] <==> !s.bit.stranded
    ensures forall r :: r in s.j.known <==> r in s.r.returned
    ensures s.j.accepted == s.j.taken + s.m.queue && Distinct(s.j.accepted)
    ensures forall r :: r in s.j.taken <==> r in s.r.completed
  {
    ReachableInv(iv0, s);
  }

  // ----- when seeding succeeds -----

  predicate SeedingFails(s: State, t: Step) {
    t.Act? && t.a in s.pcs && s.pcs[t.a].line == FIRST2 && t.c.err != 0
  }

  /** A run in which every call of the RNG succeeds. */
  predicate SeededRuns(s: State, run: seq<Step>, s1: State)
    decreases |run|
  {
    if run == [] then s == s1
    else
      && Enabled(s, run[0]) && !SeedingFails(s, run[0])
      && SeededRuns(Apply(s, run[0]), run[1..], s1)
  }

  ghost predicate NoFailure(s: State) {
    !s.bit.stranded && forall a :: a in s.pcs && s.pcs[a].line == FIRST3 ==> s.pcs[a].e == 0
  }

  lemma StepNoFailure(s: State, t: Step)
    requires NoFailure(s) && Enabled(s, t) && !SeedingFails(s, t)
    ensures NoFailure(Apply(s, t))
  {
  }

  lemma {:induction false} SeededNoFailure(s: State, run: seq<Step>, s1: State)
    requires NoFailure(s) && SeededRuns(s, run, s1)
    ensures NoFailure(s1) && Runs(s, run, s1)
    decreases |run|
  {
    hide Apply, NoFailure;
    if run != [] {
      StepNoFailure(s, run[0]);
      SeededNoFailure(Apply(s, run[0]), run[1..], s1);
    }
  }

  /** With successful seeding, nothing is left behind: at quiescence the queue is empty, the bit
      is clear and every accepted request was completed. */
  lemma NothingLeftBehind(iv0: Iv, run: seq<Step>, s: State)
    requires SeededRuns(Init(iv0), run, s) && Quiescent(s)
    ensures s.m.queue == [] && !s.m.inuse
    ensures forall r :: r in s.j.accepted <==> r in s.r.completed
  {
    SeededNoFailure(Init(iv0), run, s);
    AtQuiescence(iv0, s);
    assert s.j.accepted == s.j.taken;
  }

  lemma {:induction false} RunsAppend(s: State, run: seq<Step>, s1: State, t: Step)
    requires Runs(s, run, s1) && Enabled(s1, t)
    ensures Runs(s, run + [t], Apply(s1, t))
    decreases |run|
  {
    hide Apply, Enabled;
    if run == [] {
      assert (run + [t])[1..] == [];
      assert Runs(Apply(s1, t), [], Apply(s1, t));
    } else {
      RunsAppend(Apply(s, run[0]), run[1..], s1, t);
      assert (run + [t])[1..] == run[1..] + [t];
    }
  }

  /** The other way: caller 1 queues its request while caller 0 holds the bit to seed; the
      seeding fails, and the request stays in the queue with nobody to serve it. */
  lemma FailedSeedingStrands(iv0: Iv, e: int) returns (run: seq<Step>, s: State)
    requires e != 0
    ensures Runs(Init(iv0), run, s) && Quiescent(s)
    ensures s.m.queue == [1] && s.r.returned == map[0 := e, 1 := EINPROGRESS]
  {
    hide *;
    var c := Choice(e, [], false);
    run, s := FirstComes(iv0, c);
    run, s := SecondComes(Init(iv0), run, s, c);
    run, s := Strand(Init(iv0), run, s, Caller(0), Caller(1), c);
  }

  /** The first caller has taken the IV and unhooked itself; the random bytes are still to come. */
  predicate Seeding(s: State) {
    && s.pcs == map[Caller(0) := At(FIRST2)] && !s.m.first && s.m.inuse && !s.m.pending && s.m.queue == []
    && s.r.returned == map[] && s.j.known == {0} && s.events == [Initial(s.m.iv)]
  }

  lemma FirstComes(iv0: Iv, c: Choice) returns (run: seq<Step>, s: State)
    ensures Runs(Init(iv0), run, s) && Seeding(s) && s.m.iv == iv0
  {
    var s0 := Init(iv0);
    run, s := [], s0;
    RunsAppend(s0, run, s, Call(0));
    run, s := run + [Call(0)], Apply(s, Call(0));
    hide Runs;
    run, s := Go(s0, run, s, Caller(0), c);
    run, s := Go(s0, run, s, Caller(0), c);
  }

  /** The second finds the IV taken and queues its request. */
  lemma SecondComes(s0: State, run0: seq<Step>, s1: State, c: Choice) returns (run: seq<Step>, s: State)
    requires Runs(s0, run0, s1) && Seeding(s1)
    ensures Runs(s0, run, s)
    ensures s.pcs == map[Caller(0) := At(FIRST2), Caller(1) := At(POST1).(own := EINPROGRESS)]
    ensures s.m.inuse && !s.m.pending && s.m.queue == [1] && s.r.returned == map[]
  {
    hide Runs;
    var b := Caller(1);
    RunsAppend(s0, run0, s1, Call(1));
    run, s := run0 + [Call(1)], Apply(s1, Call(1));
    run, s := Go(s0, run, s, b, c);
    assert s.pcs == map[Caller(0) := At(FIRST2), b := At(POST0)];
    run, s := Go(s0, run, s, b, c);
  }

  /** One more step of an agent. */
  lemma Go(s0: State, run: seq<Step>, s: State, a: Agent, c: Choice) returns (run1: seq<Step>, s1: State)
    requires Runs(s0, run, s) && a in s.pcs
    ensures Runs(s0, run1, s1) && s1 == Move(s, a, c)
  {
    RunsAppend(s0, run, s, Act(a, c));
    run1, s1 := run + [Act(a, c)], Apply(s, Act(a, c));
  }

  lemma Strand(s0: State, run: seq<Step>, s: State, a: Agent, b: Agent, c: Choice)
    returns (run1: seq<Step>, s1: State)
    requires Runs(s0, run, s) && a == Caller(0) && b == Caller(1) && c.err != 0
    requires s.pcs == map[a := At(FIRST2), b := At(POST1).(own := EINPROGRESS)]
    requires s.m.inuse && !s.m.pending && s.m.queue == [1] && s.r.returned == map[]
    ensures Runs(s0, run1, s1) && Quiescent(s1)
    ensures s1.m.queue == [1] && s1.r.returned == map[0 := c.err, 1 := EINPROGRESS]
  {
    hide Runs, ReqOf;
    run1, s1 := Go(s0, run, s, b, c);
    assert s1.pcs[b].line == EXIT && s1.pcs[b].e == EINPROGRESS && s1.pcs[a].line == FIRST2;
    run1, s1 := Go(s0, run1, s1, b, c);
    assert s1.pcs == map[a := At(FIRST2)] && s1.r.returned == map[1 := EINPROGRESS];
    run1, s1 := FirstGivesUp(s0, run1, s1, a, c);
  }

  lemma FirstGivesUp(s0: State, run: seq<Step>, s: State, a: Agent, c: Choice)
    returns (run1: seq<Step>, s1: State)
    requires Runs(s0, run, s) && a == Caller(0) && c.err != 0
    requires s.pcs == map[a := At(FIRST2)] && s.r.returned == map[1 := EINPROGRESS]
    requires s.m.inuse && !s.m.pending && s.m.queue == [1]
    ensures Runs(s0, run1, s1) && Quiescent(s1)
    ensures s1.m.queue == [1] && s1.r.returned == map[0 := c.err, 1 := EINPROGRESS]
  {
    hide Runs, ReqOf;
    run1, s1 := Go(s0, run, s, a, c);
    assert s1.pcs[a].line == FIRST3 && s1.pcs[a].e == c.err && s1.pcs.Keys == {a};
    run1, s1 := Go(s0, run1, s1, a, c);
    assert s1.pcs[a].line == EXIT && s1.pcs[a].e == c.err && s1.pcs.Keys == {a};
    run1, s1 := Go(s0, run1, s1, a, c);
    assert s1.pcs.Keys == {};
  }
}

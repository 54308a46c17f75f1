/** Where async_chainiv gets IVs from. */
module ChainIvSeeding {
  import opened ChainIv
  import opened ChainIvSteps
  import opened ChainIvTheorems

  // ----- seeding is tried once, before anything is encrypted -----

  /** Before the attempt, the bit is owned by the caller that is about to make it, and the others have
      not come past the bit. */
  predicate Waits(pc: Pc, first: bool) {
    if Owns(pc) then pc.line == if first then FIRST1 else FIRST2
    else pc.line == FIRST0 || pc.line == GIV0 || pc.line == POST0 || pc.line == POST1 || pc.line == EXIT
  }

  ghost predicate Untried(m: Mem, pcs: map<Agent, Pc>) {
    && !m.pending && (m.inuse || m.first)
    && forall a :: a in pcs ==> Waits(pcs[a], m.first) && (m.inuse || pcs[a].line == FIRST0)
  }

  /** After it the hook is replaced, and nobody is going to try again. */
  ghost predicate Tried(m: Mem, pcs: map<Agent, Pc>) {
    !m.first && forall a :: a in pcs ==> pcs[a].line != FIRST2
  }

  /** The first thing that happens to ctx->iv is the attempt, and all that follows are encryptions. */
  ghost predicate OneAttempt(events: seq<Event>) {
    && |events| > 0 && events[0].Initial?
    && (|events| > 1 ==> events[1].Seeded? || events[1].SeedFailed?)
    && forall k :: 2 <= k < |events| ==> events[k].Served?
  }

  ghost predicate Once(s: State) {
    && OneAttempt(s.events)
    && if |s.events| == 1 then Untried(s.m, s.pcs) else Tried(s.m, s.pcs)
  }

  lemma EnterOnce(s: State, a: Agent, c: Choice)
    requires Owned(s.m, s.pcs, s.bit.holder) && Once(s)
    requires a in s.pcs && (s.pcs[a].line == FIRST0 || FIRST1 <= s.pcs[a].line <= FIRST3)
    ensures Once(Enter(s, a, c))
  {
  }

  lemma PostponeOnce(s: State, a: Agent, c: Choice)
    requires Owned(s.m, s.pcs, s.bit.holder) && Once(s)
    requires a in s.pcs && FIRST0 < s.pcs[a].line <= POST2 && !(FIRST1 <= s.pcs[a].line <= FIRST3)
    ensures Once(Postpone(s, a, c))
  {
    hide OneAttempt;
  }

  lemma ServeOnce(s: State, a: Agent, c: Choice)
    requires Once(s) && a in s.pcs && WORK0 <= s.pcs[a].line <= TAIL2
    ensures Once(Serve(s, a, c))
  {
  }

  lemma LeaveOnce(s: State, a: Agent)
    requires Once(s) && a in s.pcs && SCHED0 <= s.pcs[a].line <= EXIT
    ensures Once(Leave(s, a))
  {
    hide OneAttempt;
  }

  lemma NewOnce(s: State, t: Step)
    requires Once(s) && Enabled(s, t) && !t.Act?
    ensures Once(Apply(s, t))
  {
    hide OneAttempt;
  }

  lemma LineBounded(s: State, a: Agent)
    requires Inv(s) && a in s.pcs
    ensures s.pcs[a].line <= EXIT && Owned(s.m, s.pcs, s.bit.holder)
  {
  }

  lemma StepOnce(s: State, t: Step)
    requires Inv(s) && Once(s) && Enabled(s, t)
    ensures Once(Apply(s, t))
  {
    hide Inv, Once, Enter, Postpone, Serve, Leave, Owned;
    match t
    case Act(a, c) =>
      LineBounded(s, a);
      var line := s.pcs[a].line;
      if line == FIRST0 || FIRST1 <= line <= FIRST3 {
        EnterOnce(s, a, c);
      } else if line <= POST2 {
        PostponeOnce(s, a, c);
      } else if line <= TAIL2 {
        ServeOnce(s, a, c);
      } else {
        LeaveOnce(s, a);
      }
    case _ => NewOnce(s, t);
  }

  lemma {:induction false} RunOnce(s: State, run: seq<Step>, s1: State)
    requires Inv(s) && Once(s) && Runs(s, run, s1)
    ensures Once(s1)
    decreases |run|
  {
    hide Inv, Once, Apply;
    if run != [] {
      StepInv(s, run[0]);
      StepOnce(s, run[0]);
      RunOnce(Apply(s, run[0]), run[1..], s1);
    }
  }

  /** In every reachable state, the random source was asked at most once, and before anything was
      encrypted. */
  lemma SeedsOnce(iv0: Iv, s: State)
    requires Reachable(iv0, s)
    ensures OneAttempt(s.events)
  {
    hide Inv, Logged, Runs;
    var run :| Runs(Init(iv0), run, s);
    InitInv(iv0);
    assert Once(Init(iv0));
    RunOnce(Init(iv0), run, s);
  }

  ghost predicate SeededBefore(events: seq<Event>, k: nat) {
    exists j :: 0 <= j < k && j < |events| && events[j].Seeded?
  }

  ghost predicate FailedBefore(events: seq<Event>, k: nat) {
    exists j :: 0 <= j < k && j < |events| && events[j].SeedFailed?
  }

  /** A request is served with an IV that goes back to the random source if and only if the one attempt
      to seed did not fail. */
  lemma SeededExactly(iv0: Iv, s: State, k: nat)
    requires Reachable(iv0, s) && k < |s.events| && s.events[k].Served?
    ensures k >= 2 && (SeededBefore(s.events, k) <==> !FailedBefore(s.events, k))
  {
    hide Reachable;
    SeedsOnce(iv0, s);
    if s.events[1].Seeded? {
      assert SeededBefore(s.events, k);
    } else {
      assert FailedBefore(s.events, k);
    }
  }

  lemma {:induction false} NoneFailed(s: State, run: seq<Step>, s1: State)
    requires (forall e :: e in s.events ==> !e.SeedFailed?) && SeededRuns(s, run, s1)
    ensures Runs(s, run, s1) && forall e :: e in s1.events ==> !e.SeedFailed?
    decreases |run|
  {
    hide Apply;
    if run != [] {
      StepNoneFailed(s, run[0]);
      NoneFailed(Apply(s, run[0]), run[1..], s1);
    }
  }

  lemma StepNoneFailed(s: State, t: Step)
    requires (forall e :: e in s.events ==> !e.SeedFailed?) && Enabled(s, t) && !SeedingFails(s, t)
    ensures forall e :: e in Apply(s, t).events ==> !e.SeedFailed?
  {
  }

  /** If the random source does not fail, nothing is encrypted before the IV is seeded. */
  lemma SeededBeforeUse(iv0: Iv, run: seq<Step>, s: State, k: nat)
    requires SeededRuns(Init(iv0), run, s) && k < |s.events| && s.events[k].Served?
    ensures SeededBefore(s.events, k)
  {
    hide Runs, SeededRuns;
    NoneFailed(Init(iv0), run, s);
    SeededExactly(iv0, s, k);
    NoFailureBefore(s.events, k);
  }

  lemma NoFailureBefore(events: seq<Event>, k: nat)
    requires forall e :: e in events ==> !e.SeedFailed?
    ensures !FailedBefore(events, k)
  {
  }

  // ----- what a failure leads to -----

  /** The first caller was told of the failure; the hook is replaced all the same. */
  predicate Unhooked(s: State, iv0: Iv, e: int) {
    && s.pcs == map[] && !s.m.first && !s.m.inuse && !s.m.pending && s.m.queue == [] && s.m.iv == iv0
    && s.r.returned == map[0 := e] && s.j.known == {0} && s.events == [Initial(iv0), SeedFailed(0, e)]
  }

  lemma FirstFails(s0: State, run0: seq<Step>, s: State, c: Choice) returns (run: seq<Step>, s1: State)
    requires Runs(s0, run0, s) && Seeding(s) && c.err != 0
    ensures Runs(s0, run, s1) && Unhooked(s1, s.m.iv, c.err)
  {
    hide Runs;
    var a := Caller(0);
    run, s1 := Go(s0, run0, s, a, c);
    assert s1.pcs.Keys == {a} && s1.pcs[a].line == FIRST3 && s1.pcs[a].e == c.err;
    run, s1 := Go(s0, run, s1, a, c);
    assert s1.pcs.Keys == {a} && s1.pcs[a].line == EXIT && s1.pcs[a].e == c.err;
    run, s1 := Go(s0, run, s1, a, c);
    assert s1.pcs.Keys == {};
  }

  /** The next caller goes straight to the encryption. */
  lemma NextServed(s0: State, run0: seq<Step>, s: State, iv0: Iv, e: int, c: Choice)
      returns (run: seq<Step>, s1: State)
    requires Runs(s0, run0, s) && Unhooked(s, iv0, e) && c.err == 0
    ensures Runs(s0, run, s1) && s1.pcs.Keys == {Caller(1)} && s1.pcs[Caller(1)].line == TAIL2
    ensures s1.pcs[Caller(1)].own == 0 && s1.m.queue == [] && !s1.m.pending && s1.m.err == 0
    ensures s1.r.returned == map[0 := e]
    ensures s1.events == [Initial(iv0), SeedFailed(0, e), Served(1, iv0, 0, c.iv)]
  {
    hide Runs;
    var b := Caller(1);
    RunsAppend(s0, run0, s, Call(1));
    run, s1 := run0 + [Call(1)], Apply(s, Call(1));
    assert s1.pcs.Keys == {b} && s1.pcs[b] == At(GIV0);
    run, s1 := Go(s0, run, s1, b, c);
    assert s1.pcs.Keys == {b} && s1.pcs[b] == At(GIV1);
    run, s1 := Go(s0, run, s1, b, c);
    assert s1.pcs.Keys == {b} && s1.pcs[b] == At(TAIL0);
    run, s1 := Go(s0, run, s1, b, c);
    assert s1.pcs.Keys == {b} && s1.pcs[b] == At(TAIL1).(iv := iv0);
    run, s1 := Go(s0, run, s1, b, c);
    assert s1.pcs.Keys == {b};
  }

  lemma NextReturns(s0: State, run0: seq<Step>, s: State, c: Choice) returns (run: seq<Step>, s1: State)
    requires Runs(s0, run0, s) && s.pcs.Keys == {Caller(1)} && s.pcs[Caller(1)].line == TAIL2
    requires s.pcs[Caller(1)].own == 0 && s.m.queue == [] && !s.m.pending && s.m.err == 0
    ensures Runs(s0, run, s1) && Quiescent(s1) && s1.events == s.events
    ensures s1.r.returned == s.r.returned[1 := 0]
  {
    hide Runs;
    var b := Caller(1);
    run, s1 := Go(s0, run0, s, b, c);
    assert s1.pcs.Keys == {b} && s1.pcs[b].line == SCHED0;
    run, s1 := Go(s0, run, s1, b, c);
    assert s1.pcs.Keys == {b} && s1.pcs[b].line == SCHED1 && s1.pcs[b].e == 0;
    run, s1 := Go(s0, run, s1, b, c);
    assert s1.pcs.Keys == {b} && s1.pcs[b].line == SCHED2 && s1.pcs[b].e == 0;
    run, s1 := Finishes(s0, run, s1, c);
  }

  lemma Finishes(s0: State, run0: seq<Step>, s: State, c: Choice) returns (run: seq<Step>, s1: State)
    requires Runs(s0, run0, s) && s.pcs.Keys == {Caller(1)} && s.pcs[Caller(1)].line == SCHED2
    requires s.pcs[Caller(1)].e == 0 && s.m.queue == [] && !s.m.pending
    ensures Runs(s0, run, s1) && Quiescent(s1) && s1.events == s.events
    ensures s1.r.returned == s.r.returned[1 := 0]
  {
    hide Runs;
    var b := Caller(1);
    run, s1 := Go(s0, run0, s, b, c);
    assert s1.pcs.Keys == {b} && s1.pcs[b].line == SCHED3 && s1.pcs[b].e == 0;
    run, s1 := Go(s0, run, s1, b, c);
    assert s1.pcs.Keys == {b} && s1.pcs[b].line == EXIT && s1.pcs[b].e == 0;
    run, s1 := Go(s0, run, s1, b, c);
    assert s1.pcs.Keys == {};
  }

  /** After a failed attempt the next caller is served, with success, from what ctx->iv happened to
      hold; no random byte was ever put there. */
  lemma FailedSeedingServes(iv0: Iv, e: int, iv1: Iv) returns (run: seq<Step>, s: State)
    requires e != 0
    ensures Runs(Init(iv0), run, s) && Quiescent(s) && s.r.returned == map[0 := e, 1 := 0]
    ensures s.events == [Initial(iv0), SeedFailed(0, e), Served(1, iv0, 0, iv1)]
  {
    hide Runs, Init;
    run, s := FirstComes(iv0, Choice(e, [], false));
    run, s := FirstFails(Init(iv0), run, s, Choice(e, [], false));
    run, s := NextServed(Init(iv0), run, s, iv0, e, Choice(0, iv1, false));
    run, s := NextReturns(Init(iv0), run, s, Choice(0, iv1, false));
  }
}

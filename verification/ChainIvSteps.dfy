/** Every step of the asynchronous IV generator keeps the invariant of ChainIv: a new caller, a new run
    of the work item, and each single access to shared state by anyone.  A second invariant, `Logged`,
    ties what callers are owed or have been told to the events that really took place: every code is
    that of the request's own encryption or seeding, or the answer to its own enqueue.  Both are then
    carried over runs. */
module ChainIvSteps {
  import opened Options
  import opened ChainIv

  // ----- every step keeps the invariant -----

  lemma CallInv(s: State, r: nat)
    requires Inv(s) && Enabled(s, Call(r))
    ensures Inv(Apply(s, Call(r)))
  {
    hide Owned, Attended, Chained, Named, Conserved, Honest;
    var pc := At(if s.m.first then FIRST0 else GIV0);
    NewCaller(s, r);
    CallLooks(s, r, pc);
    CallFirst(s, r, pc);
    CallConserved(s, r, pc);
    CallHonest(s, r, pc);
  }

  lemma NewCaller(s: State, r: nat)
    requires Inv(s) && r !in s.j.known
    ensures Caller(r) !in s.pcs
  {
    hide Owned, Attended, Chained, Conserved, Honest;
  }

  lemma CallLooks(s: State, r: nat, pc: Pc)
    requires Attended(s.m, s.pcs, s.bit.stranded) && Caller(r) !in s.pcs
    ensures Attended(s.m, s.pcs[Caller(r) := pc], s.bit.stranded)
  {
    if SomeoneLooks(s.pcs) {
      var b :| b in s.pcs && WillLook(s.pcs[b]);
      var pcs := s.pcs[Caller(r) := pc];
      assert b in pcs && WillLook(pcs[b]);
    }
  }

  /** A caller at its first line owns nothing and has used nothing. */
  lemma CallFirst(s: State, r: nat, pc: Pc)
    requires Inv(s) && r !in s.j.known && (pc == At(FIRST0) || pc == At(GIV0)) && Caller(r) !in s.pcs
    ensures Owned(s.m, s.pcs[Caller(r) := pc], s.bit.holder)
    ensures Chained(s.m.iv, s.pcs[Caller(r) := pc], s.bit.holder, s.events)
    ensures Named(s.pcs[Caller(r) := pc], s.j.(known := s.j.known + {r}), s.r.returned)
  {
    hide Attended, Conserved, Honest, UsedLast;
  }

  lemma CallConserved(s: State, r: nat, pc: Pc)
    requires Conserved(s.m.queue, s.pcs, s.j, s.r.completed)
    requires r !in s.j.known && Caller(r) !in s.pcs && pc.job == None
    ensures Conserved(s.m.queue, s.pcs[Caller(r) := pc], s.j.(known := s.j.known + {r}), s.r.completed)
  {
    var pcs1 := s.pcs[Caller(r) := pc];
    forall q | q in s.j.taken && q !in s.r.completed
      ensures exists b :: b in pcs1 && pcs1[b].job == Some(q)
    {
      var b :| b in s.pcs && s.pcs[b].job == Some(q);
      assert b in pcs1 && pcs1[b].job == Some(q);
    }
  }

  lemma CallHonest(s: State, r: nat, pc: Pc)
    requires Honest(s.m.err, s.pcs, s.r) && pc.line <= POST0
    ensures Honest(s.m.err, s.pcs[Caller(r) := pc], s.r)
  {
    HonestGoto(s.m.err, s.pcs, s.r, Caller(r), pc);
  }

  lemma RunWorkInv(s: State)
    requires Inv(s) && s.m.pending
    ensures Inv(Apply(s, RunWork))
  {
    var a := Worker(s.j.workers);
    var s1 := Apply(s, RunWork);
    assert a !in s.pcs;
    RunWorkOwned(s);
    HonestGoto(s.m.err, s.pcs, s.r, a, At(WORK0));
    RunWorkConserved(s);
  }

  lemma RunWorkOwned(s: State)
    requires Owned(s.m, s.pcs, s.bit.holder) && s.m.pending && Worker(s.j.workers) !in s.pcs
    ensures var s1 := Apply(s, RunWork); Owned(s1.m, s1.pcs, s1.bit.holder)
  {
  }

  lemma RunWorkConserved(s: State)
    requires Conserved(s.m.queue, s.pcs, s.j, s.r.completed) && s.m.pending
    requires Worker(s.j.workers) !in s.pcs
    ensures var s1 := Apply(s, RunWork); Conserved(s1.m.queue, s1.pcs, s1.j, s1.r.completed)
  {
    var s1 := Apply(s, RunWork);
    forall q | q in s.j.taken && q !in s.r.completed
      ensures exists b :: b in s1.pcs && s1.pcs[b].job == Some(q)
    {
      var b :| b in s.pcs && s.pcs[b].job == Some(q);
      assert b in s1.pcs && s1.pcs[b].job == Some(q);
    }
  }

  lemma MoveInv(s: State, a: Agent, c: Choice)
    requires Inv(s) && a in s.pcs
    ensures Inv(Move(s, a, c))
  {
    hide Owned, Attended, Chained, Named, Conserved, Honest;
    NamedAt(s, a);
    var line := s.pcs[a].line;
    if line == FIRST0 || FIRST1 <= line <= FIRST3 {
      hide Enter;
      EnterOwned(s, a, c);
      EnterAttended(s, a, c);
      EnterChained(s, a, c);
      EnterNamed(s, a, c);
      EnterConserved(s, a, c);
      EnterHonest(s, a, c);
    } else if line <= POST2 {
      hide Postpone;
      PostponeOwned(s, a, c);
      PostponeAttended(s, a, c);
      PostponeChained(s, a, c);
      PostponeNamed(s, a, c);
      PostponeConserved(s, a, c);
      PostponeHonest(s, a, c);
    } else if line <= TAIL2 {
      hide Serve;
      ServeOwned(s, a, c);
      ServeAttended(s, a, c);
      ServeChained(s, a, c);
      ServeNamed(s, a, c);
      ServeConserved(s, a, c);
      ServeHonest(s, a, c);
    } else {
      hide Leave;
      LeaveOwned(s, a);
      LeaveAttended(s, a);
      LeaveChained(s, a);
      LeaveNamed(s, a);
      LeaveConserved(s, a);
      LeaveHonest(s, a);
    }
  }

  lemma StepInv(s: State, t: Step)
    requires Inv(s) && Enabled(s, t)
    ensures Inv(Apply(s, t))
  {
    hide Inv, Move;
    match t
    case Call(r) => CallInv(s, r);
    case RunWork => RunWorkInv(s);
    case Act(a, c) => MoveInv(s, a, c);
  }

  lemma {:induction false} RunInv(s: State, run: seq<Step>, s1: State)
    requires Inv(s) && Runs(s, run, s1)
    ensures Inv(s1)
    decreases |run|
  {
    hide Inv, Apply;
    if run != [] {
      StepInv(s, run[0]);
      RunInv(Apply(s, run[0]), run[1..], s1);
    }
  }

  // ----- results are what happened -----

  ghost predicate ServedWith(events: seq<Event>, id: nat, v: int) {
    exists k :: 0 <= k < |events| && events[k].Served? && events[k].req == id && events[k].err == v
  }

  ghost predicate FailedWith(events: seq<Event>, id: nat, v: int) {
    exists k :: 0 <= k < |events| && events[k] == SeedFailed(id, v)
  }

  /** Request `id` was encrypted with result `v`, was queued, was refused by a full queue, or
      could not seed the IV. */
  ghost predicate Justified(events: seq<Event>, accepted: seq<nat>, id: nat, v: int) {
    || ServedWith(events, id, v)
    || FailedWith(events, id, v)
    || (v == EINPROGRESS && id in accepted)
    || v == EBUSY
  }

  ghost predicate Logged(s: State) {
    && (forall id :: id in s.r.owed ==> Justified(s.events, s.j.accepted, id, s.r.owed[id]))
    && (forall id :: id in s.r.result ==> ServedWith(s.events, id, s.r.result[id]))
  }

  lemma JustifiedGrows(events: seq<Event>, more: seq<Event>, accepted: seq<nat>, extra: seq<nat>)
    ensures forall id, v :: ServedWith(events, id, v) ==> ServedWith(events + more, id, v)
    ensures forall id, v :: Justified(events, accepted, id, v) ==>
                              Justified(events + more, accepted + extra, id, v)
  {
    var es := events + more;
    assert forall k :: 0 <= k < |events| ==> es[k] == events[k];
    forall id, v | ServedWith(events, id, v) ensures ServedWith(es, id, v) {
      var k :| 0 <= k < |events| && events[k].Served? && events[k].req == id && events[k].err == v;
      assert es[k].Served?;
    }
    forall id, v | FailedWith(events, id, v) ensures FailedWith(es, id, v) {
      var k :| 0 <= k < |events| && events[k] == SeedFailed(id, v);
      assert es[k] == events[k];
    }
  }

  /** The log grows and at most one result is fixed, by what was just logged. */
  lemma LoggedStep(s: State, s1: State, id: nat, v: int)
    requires Logged(s) && s.events <= s1.events && s.j.accepted <= s1.j.accepted
    requires || (s1.r.owed == s.r.owed && s1.r.result == s.r.result)
             || (s1.r == s.r.(owed := s.r.owed[id := v])
                 && Justified(s1.events, s1.j.accepted, id, v))
             || (s1.r == s.r.(result := s.r.result[id := v]) && ServedWith(s1.events, id, v))
    ensures Logged(s1)
  {
    hide Justified, ServedWith;
    var more, extra := s1.events[|s.events|..], s1.j.accepted[|s.j.accepted|..];
    assert s1.events == s.events + more && s1.j.accepted == s.j.accepted + extra;
    JustifiedGrows(s.events, more, s.j.accepted, extra);
  }

  lemma EncryptLogged(s: State, a: Agent, c: Choice)
    requires Logged(s) && a in s.pcs
    ensures Logged(Encrypt(s, a, c))
  {
    hide Logged;
    var s1 := Encrypt(s, a, c);
    var id := ReqOf(a, s.pcs[a].job);
    assert s1.events[|s.events|] == Served(id, s.pcs[a].iv, c.err, c.iv);
    assert ServedWith(s1.events, id, c.err);
    LoggedStep(s, s1, id, c.err);
  }

  lemma SeedLogged(s: State, a: Agent, c: Choice)
    requires Logged(s)
    ensures Logged(Seed(s, a, c))
  {
    hide Logged;
    var s1 := Seed(s, a, c);
    if c.err != 0 {
      assert s1.events[|s.events|] == SeedFailed(ReqOf(a, None), c.err);
    }
    LoggedStep(s, s1, ReqOf(a, None), c.err);
  }

  lemma EnqueueLogged(s: State, a: Agent, backlog: bool)
    requires Logged(s)
    ensures Logged(Enqueue(s, a, backlog))
  {
    hide Logged;
    var s1 := Enqueue(s, a, backlog);
    var id := ReqOf(a, None);
    assert Justified(s1.events, s1.j.accepted, id, s1.r.owed[id]) by {
      assert s1.r.owed[id] == EBUSY || id in s1.j.accepted;
    }
    LoggedStep(s, s1, id, s1.r.owed[id]);
  }

  lemma StepLogged(s: State, t: Step)
    requires Logged(s) && Enabled(s, t)
    ensures Logged(Apply(s, t))
  {
    hide Logged, Encrypt, Seed, Enqueue;
    var s1 := Apply(s, t);
    if t.Act? && s.pcs[t.a].line == TAIL1 {
      EncryptLogged(s, t.a, t.c);
    } else if t.Act? && s.pcs[t.a].line == FIRST2 {
      SeedLogged(s, t.a, t.c);
    } else if t.Act? && s.pcs[t.a].line == POST0 {
      EnqueueLogged(s, t.a, t.c.backlog);
    } else {
      LoggedStep(s, s1, 0, 0);
    }
  }

  lemma {:induction false} RunLogged(s: State, run: seq<Step>, s1: State)
    requires Logged(s) && Runs(s, run, s1)
    ensures Logged(s1)
    decreases |run|
  {
    hide Logged, Apply;
    if run != [] {
      StepLogged(s, run[0]);
      RunLogged(Apply(s, run[0]), run[1..], s1);
    }
  }
}

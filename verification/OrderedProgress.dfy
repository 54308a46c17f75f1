/** Every run without new requests ends. */
module OrderedProgress {
  import opened Lists
  import opened OrderedQueue
  import opened OrderedInvariant
  import opened OrderedSteps
  import opened OrderedSequence
  import opened OrderedTheorems
  import opened OrderedAhead

  // ----- what is left to do -----

  /** The steps a request in the list may still take: a barrier is replaced by up to three others, and
      any other is handed out, dequeued, completed, and its reference dropped late. */
  function Price(r: Req, started: set<Req>): nat {
    (if Barrier(r) then 13 else 4) - B2I(r in started)
  }

  function Cost(l: seq<Req>, started: set<Req>): nat {
    if l == [] then 0 else Price(l[0], started) + Cost(l[1..], started)
  }

  function ToDo(q: Q): nat { 5 * |q.sched| + Cost(q.list, q.started) + 2 * |q.driver| + q.unput }

  lemma {:induction false} CostConcat(a: seq<Req>, b: seq<Req>, started: set<Req>)
    ensures Cost(a + b, started) == Cost(a, started) + Cost(b, started)
  {
    if a == [] {
      assert a + b == b;
    } else {
      assert (a + b)[1..] == a[1..] + b;
      CostConcat(a[1..], b, started);
    }
  }

  lemma CostOne(r: Req, started: set<Req>)
    ensures Cost([r], started) == Price(r, started)
  {
    assert [r][1..] == [];
  }

  lemma CostInsert(l: seq<Req>, k: nat, r: Req, started: set<Req>)
    requires k <= |l|
    ensures Cost(InsertAt(l, k, r), started) == Cost(l, started) + Price(r, started)
  {
    hide Cost, Price;
    CostConcat(l[..k] + [r], l[k..], started);
    CostConcat(l[..k], [r], started);
    CostConcat(l[..k], l[k..], started);
    CostOne(r, started);
    assert l[..k] + l[k..] == l;
  }

  lemma CostRemove(l: seq<Req>, r: Req, started: set<Req>)
    requires r in l
    ensures Cost(l, started) == Cost(Remove(l, r), started) + Price(r, started)
  {
    var k := Index(l, r);
    CostInsert(Remove(l, r), k, r, started);
    assert InsertAt(Remove(l, r), k, r) == l;
  }

  lemma {:induction false} CostSame(l: seq<Req>, s: set<Req>, t: set<Req>)
    requires forall x :: x in l ==> (x in s <==> x in t)
    ensures Cost(l, s) == Cost(l, t)
  {
    if l != [] {
      assert forall x :: x in l[1..] ==> x in l;
      CostSame(l[1..], s, t);
    }
  }

  /** Handing out a request that is in the list pays for one step. */
  lemma CostStart(l: seq<Req>, r: Req, s: set<Req>)
    requires NoDup(l) && r in l && r !in s
    ensures Cost(l, s + {r}) == Cost(l, s) - 1
  {
    hide Cost, Remove;
    CostRemove(l, r, s);
    CostRemove(l, r, s + {r});
    RemoveFacts(l, r);
    CostSame(Remove(l, r), s, s + {r});
  }

  // ----- steps that get something done -----

  /** A step of the driver, of the owner of a special request, or of the scheduler, other than a
      requeue, that changes something. */
  predicate Effective(q: Q, s: Step) {
    && Enabled(q, s)
    && match s
       case SDispatch(_, _) => true
       case SNext => NextTurn(q).0 != q
       case SDequeue(_) => true
       case SComplete(_, _, _) => true
       case SLatePut => true
       case _ => false
  }

  lemma DispatchPays(q: Q, r: Req, pos: nat)
    requires Placed(q) && r in q.sched && pos <= |q.list|
    ensures ToDo(Dispatch(q, r, pos)) < ToDo(q)
  {
    hide Cost, InsertAt;
    assert r !in q.started;
    CostInsert(q.list, pos, r, q.started);
    assert |q.sched - {r}| == |q.sched| - 1;
  }

  lemma DequeuePays(q: Q, r: Req)
    requires Placed(q) && r in q.list && r in q.started
    ensures ToDo(Dequeue(q, r)) < ToDo(q)
  {
    hide Cost, Remove;
    CostRemove(q.list, r, q.started);
    assert r !in q.driver && !Barrier(r);
    assert |q.driver + {r}| == |q.driver| + 1;
  }

  lemma GonePays(q: Q, r: Req)
    requires Placed(q) && Held(q, r) && !Barrier(r)
    ensures ToDo(Gone(q, r)) + 2 <= ToDo(q)
  {
    hide Cost, Remove;
    var q1 := Gone(q, r);
    if r in q.list {
      CostRemove(q.list, r, q.started);
      RemoveFacts(q.list, r);
      CostSame(q1.list, q.started, q1.started);
      assert q1.driver == q.driver;
    } else {
      CostSame(q.list, q.started, q1.started);
      assert |q.driver - {r}| == |q.driver| - 1;
    }
  }

  lemma CompletePays(q: Q, r: Req, err: int, put: bool)
    requires Placed(q) && Held(q, r) && !Barrier(r)
    ensures ToDo(Complete(q, r, err, put)) < ToDo(q)
  {
    CompleteUnfolds(q, r, err, put);
    GonePays(q, r);
    hide Cost, Gone, Complete, CompleteSeq, DrainCheck;
  }

  lemma LatePutPays(q: Q)
    requires q.unput > 0
    ensures ToDo(LatePut(q)) < ToDo(q)
  {
    hide Cost, DrainCheck;
  }

  lemma HandOutPays(q: Q, r: Req)
    requires Placed(q) && r in q.list && r !in q.started
    ensures ToDo(q.(started := q.started + {r})) < ToDo(q)
  {
    hide Cost;
    CostStart(q.list, r, q.started);
  }

  lemma ProxiesCost(mode: Mode, empty: bool, started: set<Req>)
    requires !mode.NoOrder?
    ensures Cost(Proxies(mode, empty), started) <= 12
  {
    var a := if mode.pre then [PreFlush] else [];
    var b := if mode.post && !empty then [PostFlush] else [];
    CostConcat(a + [BarProxy], b, started);
    CostConcat(a, [BarProxy], started);
    CostOne(PreFlush, started);
    CostOne(BarProxy, started);
    CostOne(PostFlush, started);
    assert Proxies(mode, empty) == a + [BarProxy] + b;
    hide Proxies;
  }

  /** The steps of a sequence cost less than the barrier that they replace. */
  lemma StartPays(q: Q)
    requires Placed(q) && ProxiesHeld(q) && q.ord == IDLE
    requires |q.list| > 0 && Barrier(q.list[0]) && !q.mode.NoOrder?
    ensures ToDo(StartOrdered(q)) < ToDo(q)
  {
    hide Cost, StartOrdered, Proxies;
    var q1, p := StartOrdered(q), Proxies(q.mode, q.list[0].empty);
    StartList(q);
    StartFrame(q);
    CostConcat(p, q.list[1..], q1.started);
    ProxiesCost(q.mode, q.list[0].empty, q1.started);
    CostSame(q.list[1..], q.started, q1.started);
    assert q.list == [q.list[0]] + q.list[1..];
    CostConcat([q.list[0]], q.list[1..], q.started);
    CostOne(q.list[0], q.started);
    assert q.list[0] !in q.started;
  }

  lemma StartFrame(q: Q)
    requires Placed(q) && ProxiesHeld(q) && q.ord == IDLE
    requires |q.list| > 0 && Barrier(q.list[0]) && !q.mode.NoOrder?
    ensures
      var q1 := StartOrdered(q);
      && q1.sched == q.sched && q1.driver == q.driver && q1.unput == q.unput
      && forall x :: x in q.list[1..] ==> (x in q.started <==> x in q1.started)
  {
    assert forall x :: x in q.list[1..] ==> x in q.list;
  }

  lemma RefusePays(q: Q)
    requires |q.list| > 0 && Barrier(q.list[0])
    ensures ToDo(RefuseBarrier(q)) < ToDo(q)
  {
    hide Cost;
    assert q.list == [q.list[0]] + q.list[1..];
    CostConcat([q.list[0]], q.list[1..], q.started);
    CostOne(q.list[0], q.started);
  }

  /** The rest of a turn, when the head of the list is let through. */
  lemma PassPays(q: Q, q1: Q, r: Req)
    requires Placed(q1) && |q1.list| > 0 && q1.list[0] == r && !Barrier(r)
    requires |q.list| > 0 && DoOrdered(q) == (q1, Pass(r))
    ensures ToDo(NextTurn(q).0) <= ToDo(q1)
    ensures NextTurn(q).0 != q1 ==> ToDo(NextTurn(q).0) < ToDo(q1)
  {
    hide DoOrdered, ToDo, Placed;
    if r.BarProxy? && q1.orig.Rq? && q1.orig.empty {
      CompletePays(q1, BarProxy, 0, true);
    } else if r in q1.started {
      assert q1.started + {r} == q1.started;
    } else {
      PlacedNoDup(q1);
      HandOutPays(q1, r);
    }
  }

  lemma PlacedNoDup(q: Q)
    requires Placed(q)
    ensures NoDup(q.list)
  {
  }

  lemma NextPays(q: Q)
    requires Inv(q) && |q.list| > 0 && NextTurn(q).0 != q
    ensures ToDo(NextTurn(q).0) < ToDo(q)
  {
    NextCases(q);
    if q.ord.started || !Barrier(q.list[0]) {
      PassedHead(q);
      PassPays(q, q, q.list[0]);
    } else if q.mode.NoOrder? {
      RefusePays(q);
      RefusedTurn(q);
    } else {
      StartPays(q);
      StartPlaced(q);
      StartHead(q);
      StartedTurn(q);
      var q1 := StartOrdered(q);
      hide StartOrdered, ToDo, Placed, ProxiesHeld, DoOrdered;
      if q1.ord.drain {
        PassPays(q, q1, q1.list[0]);
      }
    }
  }

  /** Barriers are not let through. */
  lemma PassedHead(q: Q)
    requires Inv(q) && |q.list| > 0 && DoOrdered(q) == (q, Pass(q.list[0]))
    requires !q.ord.started ==> !Barrier(q.list[0])
    ensures !Barrier(q.list[0])
  {
    hide StartOrdered;
    if q.mode.Drain? {
      PassIsDue(q);
    }
  }

  lemma RefusedTurn(q: Q)
    requires |q.list| > 0 && Barrier(q.list[0]) && !q.ord.started && q.mode.NoOrder?
    ensures NextTurn(q).0 == RefuseBarrier(q)
  {
  }

  lemma StartedTurn(q: Q)
    requires |q.list| > 0 && Barrier(q.list[0]) && !q.ord.started && !q.mode.NoOrder?
    requires |StartOrdered(q).list| > 0
    ensures
      var q1 := StartOrdered(q);
      && (q1.ord.drain ==> DoOrdered(q) == (q1, Pass(q1.list[0])))
      && (!q1.ord.drain ==> NextTurn(q).0 == q1)
  {
    hide StartOrdered;
  }

  /** Every effective step leaves less to do. */
  lemma StepPays(q: Q, s: Step)
    requires Inv(q) && Effective(q, s)
    ensures ToDo(Apply(q, s)) < ToDo(q)
  {
    match s
    case SDispatch(r, pos) => DispatchPays(q, r, pos);
    case SNext => NextPays(q);
    case SDequeue(r) => DequeuePays(q, r);
    case SComplete(r, err, put) => CompletePays(q, r, err, put);
    case SLatePut => LatePutPays(q);
  }

  // ----- when nothing can be done -----

  /** A step that can be taken. */
  lemma SomeStep(q: Q) returns (s: Step)
    requires Inv(q) && Ahead(q.list)
    requires q.sched != {} || q.driver != {} || q.unput > 0 || q.list != []
    ensures Effective(q, s)
    ensures q.driver != {} ==> s.SComplete? && s.r in q.driver
  {
    if r :| r in q.driver {
      s := SComplete(r, 0, true);
    } else if q.unput > 0 {
      s := SLatePut;
    } else if r :| r in q.sched {
      s := SDispatch(r, |q.list|);
    } else {
      HeadAdmitted(q);
      s := HeadStep(q);
    }
  }

  /** If the head is let through, it can be handed out or, when it has been, dequeued. */
  lemma HeadStep(q: Q) returns (s: Step)
    requires |q.list| > 0 && !NextTurn(q).1.Nothing?
    ensures Effective(q, s) && (s == SNext || (s == SDequeue(q.list[0]) && q.list[0] in q.started))
  {
    if NextTurn(q).0 != q {
      s := SNext;
    } else {
      HeadAgain(q);
      s := SDequeue(q.list[0]);
    }
  }

  lemma HeadAgain(q: Q)
    requires |q.list| > 0 && !NextTurn(q).1.Nothing? && NextTurn(q).0 == q
    ensures q.list[0] in q.started
  {
    if NextTurn(q).1.Again? {
      NextTurnWorks(q);
    } else {
      NextGives(q);
      GivesHead(q);
    }
  }

  lemma GivesHead(q: Q)
    requires |q.list| > 0 && NextTurn(q).1.Give?
    ensures |NextTurn(q).0.list| > 0 && NextTurn(q).0.list[0] == NextTurn(q).1.r
  {
    hide DoOrdered, Complete;
  }

  /** Nothing is queued, and every barrier has been ended. */
  predicate AllDone(q: Q) {
    && q.sched == {} && q.driver == {} && q.unput == 0 && q.list == []
    && !q.ord.started && |q.hist.ended| == |q.bars|
  }

  lemma EmptyIsDone(q: Q)
    requires Inv(q)
    requires q.sched == {} && q.driver == {} && q.unput == 0 && q.list == []
    ensures AllDone(q)
  {
    hide Coloured, Numbered, Draining, InOrder;
    if q.ord.started {
      StepsQueued(q);
    }
    if q.hist.begun < |q.bars| {
      BarrierQueued(q);
    }
  }

  /** While a sequence runs and nothing is outstanding, something is queued. */
  lemma StepsQueued(q: Q)
    requires Inv(q) && q.ord.started && q.driver == {} && q.unput == 0
    ensures q.list != []
  {
    hide Coloured, Numbered, StepsRecorded, Draining, InOrder;
    if q.ord.drain {
      var p := SomeStepHeld(q);
    }
  }

  lemma BarrierQueued(q: Q)
    requires BarriersListed(q) && q.hist.begun < |q.bars|
    ensures q.list != []
  {
    assert q.bars[q.hist.begun] in q.list;
  }

  // ----- runs -----

  /** A run of effective steps. */
  ghost predicate Works(q: Q, run: seq<Step>, q1: Q)
    decreases |run|
  {
    if run == [] then q == q1
    else Effective(q, run[0]) && Works(Apply(q, run[0]), run[1..], q1)
  }

  ghost predicate CanWork(q: Q) { exists s :: Effective(q, s) }

  lemma WorkInv(q: Q, s: Step)
    requires Inv(q) && Effective(q, s)
    ensures Inv(Apply(q, s)) && Apply(q, s).mode == q.mode
  {
    StepInv(q, s);
    StepMode(q, s);
  }

  lemma {:induction false} WorkBounded(q: Q, run: seq<Step>, q1: Q)
    requires Inv(q) && Ahead(q.list) && Works(q, run, q1)
    ensures Inv(q1) && Ahead(q1.list) && q1.mode == q.mode && |run| + ToDo(q1) <= ToDo(q)
    decreases |run|
  {
    hide Inv, Ahead, Effective, Apply, ToDo;
    if run != [] {
      EffectiveEnabled(q, run[0]);
      StepAhead(q, run[0]);
      WorkInv(q, run[0]);
      StepPays(q, run[0]);
      WorkBounded(Apply(q, run[0]), run[1..], q1);
    }
  }

  lemma EffectiveEnabled(q: Q, s: Step)
    requires Effective(q, s)
    ensures Enabled(q, s)
  {
  }

  /** In every mode: with nothing added and nothing requeued, every run of the driver and the scheduler is over after
      at most ToDo(q) steps; it can only stop when all requests are completed and all barriers ended. */
  lemma EveryRunEnds(mode: Mode, q: Q, run: seq<Step>, q1: Q)
    requires Reachable(mode, q) && Works(q, run, q1)
    ensures |run| <= ToDo(q)
    ensures CanWork(q1) || AllDone(q1)
    ensures q1.bars == q.bars
  {
    hide Inv, Ahead, Works, ToDo, Effective, AllDone;
    ReachableAhead(mode, q);
    WorkBounded(q, run, q1);
    BarsKept(q, run, q1);
    if q1.sched != {} || q1.driver != {} || q1.unput > 0 || q1.list != [] {
      var s := SomeStep(q1);
    } else {
      EmptyIsDone(q1);
    }
  }

  lemma StepBars(q: Q, s: Step)
    requires Effective(q, s)
    ensures Apply(q, s).bars == q.bars
  {
    hide DrainCheck, CompleteSeq, RequeueSlot, Remove, InsertAt, Proxies;
    match s
    case SNext => NextBars(q);
    case _ =>
  }

  lemma NextBars(q: Q)
    requires |q.list| > 0
    ensures NextTurn(q).0.bars == q.bars
  {
    hide DrainCheck, CompleteSeq, Remove, Proxies;
  }

  lemma {:induction false} BarsKept(q: Q, run: seq<Step>, q1: Q)
    requires Works(q, run, q1)
    ensures q1.bars == q.bars
    decreases |run|
  {
    if run != [] {
      StepBars(q, run[0]);
      hide Effective, Apply;
      BarsKept(Apply(q, run[0]), run[1..], q1);
    }
  }
}

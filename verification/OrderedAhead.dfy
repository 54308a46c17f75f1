/** The barrier protocol never waits for nothing, in any mode. */
module OrderedAhead {
  import opened Lists
  import opened OrderedQueue
  import opened OrderedInvariant
  import opened OrderedSteps
  import opened OrderedSequence
  import opened OrderedTheorems

  // ----- the steps of a sequence stand before every barrier -----

  predicate Ahead(l: seq<Req>) {
    forall i, j :: 0 <= i < j < |l| && Barrier(l[i]) ==> l[j].Rq?
  }

  lemma AheadRemove(l: seq<Req>, r: Req)
    requires Ahead(l) && r in l
    ensures Ahead(Remove(l, r))
  {
    hide Remove, Barrier;
    RemoveAt(l, r);
    var k, m := Index(l, r), Remove(l, r);
    forall i, j | 0 <= i < j < |m| && Barrier(m[i]) ensures m[j].Rq? {
      assert m[i] == l[if i < k then i else i + 1] && m[j] == l[if j < k then j else j + 1];
    }
  }

  lemma AheadInsert(l: seq<Req>, k: nat, r: Req)
    requires Ahead(l) && k <= |l| && !Barrier(r)
    requires r.Rq? || forall i :: 0 <= i < k ==> !Barrier(l[i])
    ensures Ahead(InsertAt(l, k, r))
  {
    hide Barrier;
    var m := InsertAt(l, k, r);
    assert forall i :: 0 <= i < |m| ==> m[i] == if i < k then l[i] else if i == k then r else l[i - 1];
  }

  lemma AheadPush(p: seq<Req>, l: seq<Req>)
    requires Ahead(l) && forall i :: 0 <= i < |p| ==> !Barrier(p[i])
    ensures Ahead(p + l)
  {
    hide Barrier;
  }

  lemma AheadTail(l: seq<Req>)
    requires Ahead(l) && l != []
    ensures Ahead(l[1..])
  {
    hide Barrier;
  }

  /** A requeued step finds its place before every barrier: the next barrier has the other colour, and the
      ones after it stand behind it. */
  lemma NoBarrierBefore(q: Q, s: nat, i: nat)
    requires Placed(q) && Coloured(q) && BarriersListed(q) && q.ord.started && s < DONE
    requires i < |q.list| && forall j :: 0 <= j <= i ==> ReqSeq(OrigColor(q), q.list[j]) < s
    ensures !Barrier(q.list[i])
  {
    hide Placed, Coloured, BarriersListed, Barrier;
    if Barrier(q.list[i]) {
      NextComesFirst(q, i);
    }
  }

  lemma NextComesFirst(q: Q, i: nat)
    requires Placed(q) && Coloured(q) && BarriersListed(q) && q.ord.started && i < |q.list| && Barrier(q.list[i])
    ensures exists j :: 0 <= j <= i && ReqSeq(OrigColor(q), q.list[j]) == DONE
  {
    var n := q.bars[q.hist.begun];
    assert Live(q, q.list[i]) && Live(q, n);
    var k :| 0 <= k < |q.list| && q.list[k] == n;
    assert ReqSeq(OrigColor(q), n) == DONE;
    assert k <= i;
  }

  lemma RequeueAhead(q: Q, r: Req)
    requires Inv(q) && Ahead(q.list) && r in q.driver
    ensures Ahead(Requeue(q, r).list)
  {
    hide ProxiesHeld, Numbered, Recorded, Draining, InOrder, Awaited, Ahead, InsertAt;
    RequeuePlaced(q, r);
    var k := RequeueSlot(q, r);
    if !r.Rq? {
      assert Held(q, r);
      StepRuns(q, r);
      forall i | 0 <= i < k ensures !Barrier(q.list[i]) {
        hide Placed, Coloured, BarriersListed;
        NoBarrierBefore(q, ReqSeq(OrigColor(q), r), i);
      }
    }
    AheadInsert(q.list, k, r);
  }

  lemma StepRuns(q: Q, r: Req)
    requires Inv(q) && !r.Rq? && Held(q, r)
    ensures q.ord.started && !HasBit(q.ord, StepOf(r))
  {
    hide Placed, Coloured, BarriersListed, Numbered, Recorded, Draining, InOrder, Awaited, Held;
  }

  lemma CompleteAhead(q: Q, r: Req, err: int, put: bool)
    requires Ahead(q.list)
    ensures Ahead(Complete(q, r, err, put).list)
  {
    hide Ahead, Remove, DrainCheck, CompleteSeq;
    if r in q.list {
      AheadRemove(q.list, r);
    }
  }

  lemma ProxiesAreNone(mode: Mode, empty: bool)
    requires !mode.NoOrder?
    ensures forall i :: 0 <= i < |Proxies(mode, empty)| ==> !Barrier(Proxies(mode, empty)[i])
  {
  }

  lemma NextAhead(q: Q)
    requires Ahead(q.list) && |q.list| > 0
    ensures Ahead(NextTurn(q).0.list)
  {
    hide Ahead, StartOrdered, Complete, Proxies;
    AheadTail(q.list);
    if q.list[0].Rq? && !q.mode.NoOrder? {
      StartList(q);
      ProxiesAreNone(q.mode, q.list[0].empty);
      AheadPush(Proxies(q.mode, q.list[0].empty), q.list[1..]);
    }
    CompleteAhead(DoOrdered(q).0, BarProxy, 0, true);
  }

  lemma AddAhead(l: seq<Req>, r: Req)
    requires Ahead(l) && r.Rq?
    ensures Ahead(l + [r]) && (!Barrier(r) ==> Ahead([r] + l))
  {
    hide Barrier;
  }

  lemma StepAhead(q: Q, s: Step)
    requires Inv(q) && Ahead(q.list) && Enabled(q, s)
    ensures Ahead(Apply(q, s).list)
  {
    hide Inv, Ahead, NextTurn, Complete, Remove, InsertAt, DrainCheck, RequeueAt, DispatchSlot;
    match s
    case SAddFs(hard, empty, _) => AddAhead(q.list, NewRq(q, true, hard, empty));
    case SAddSpecial(hard, _) => AddAhead(q.list, NewRq(q, false, hard, false));
    case SDispatch(r, pos) => SortedPlain(q, r); SlotBound(q, pos); AheadInsert(q.list, pos, r);
    case SNext => NextAhead(q);
    case SDequeue(r) => AheadRemove(q.list, r);
    case SRequeue(r) => RequeueAhead(q, r);
    case SComplete(r, err, put) => CompleteAhead(q, r, err, put);
    case SPartialBar(_) =>
    case SLatePut =>
  }

  lemma SortedPlain(q: Q, r: Req)
    requires Inv(q) && r in q.sched
    ensures Plain(r)
  {
  }

  lemma SlotBound(q: Q, pos: nat)
    requires DispatchSlot(q, pos)
    ensures pos <= |q.list|
  {
  }

  lemma {:induction false} RunAhead(q: Q, run: seq<Step>, q1: Q)
    requires Inv(q) && Ahead(q.list) && Runs(q, run, q1) && FsBarriersOnly(run)
    ensures Ahead(q1.list)
    decreases |run|
  {
    hide Inv, Apply, Ahead;
    if run != [] {
      StepInv(q, run[0]);
      StepAhead(q, run[0]);
      assert forall i :: 0 <= i < |run[1..]| ==> run[1..][i] == run[i + 1];
      RunAhead(Apply(q, run[0]), run[1..], q1);
    }
  }

  lemma ReachableAhead(mode: Mode, q: Q)
    requires Reachable(mode, q)
    ensures Inv(q) && Ahead(q.list) && q.mode == mode
  {
    hide Inv;
    ReachableInv(mode, q);
    var run :| Runs(Init(mode), run, q) && FsBarriersOnly(run);
    InitInv(mode);
    RunAhead(Init(mode), run, q);
  }

  // ----- who has to wait -----

  /** With a step of the running sequence in the list, no barrier is at the head. */
  lemma StepIsAhead(q: Q, p: Req)
    requires Ahead(q.list) && p in q.list && !p.Rq? && |q.list| > 0
    ensures !Barrier(q.list[0])
  {
    var j :| 0 <= j < |q.list| && q.list[j] == p;
  }

  /** A running sequence that is past its drain has a step in the list or with the driver. */
  lemma SomeStepHeld(q: Q) returns (p: Req)
    requires Inv(q) && q.ord.started && q.ord.drain
    ensures !p.Rq? && Held(q, p)
  {
    hide Placed, Coloured, Numbered, Recorded, Draining, InOrder, Awaited, Held;
    p := if !q.ord.pre then PreFlush else if !q.ord.bar then BarProxy else PostFlush;
  }

  /** In a tagged sequence only a barrier at the head waits.  It is the next one, and it waits for a step that is
      with the driver; everything else goes straight through, and the proxy of an empty barrier is
      ended on the spot. */
  lemma TaggedAdmits(mode: Mode, q: Q)
    requires mode.Tag? && Reachable(mode, q) && q.ord.started && |q.list| > 0
    ensures NextTurn(q).1.Nothing? <==> Barrier(q.list[0])
    ensures !Barrier(q.list[0]) ==>
      if q.list[0] == BarProxy && q.orig.Rq? && q.orig.empty then NextTurn(q).1.Again?
      else NextTurn(q).1 == Give(q.list[0])
    ensures Barrier(q.list[0]) ==>
      q.hist.begun < |q.bars| && q.list[0] == q.bars[q.hist.begun] && exists p :: p in q.driver && !p.Rq?
  {
    ReachableAhead(mode, q);
    TaggedDrained(q);
    hide Inv, Ahead;
    if Barrier(q.list[0]) {
      InvListed(q);
      HeadIsNext(q);
      var p := SomeStepHeld(q);
      if p in q.list {
        StepIsAhead(q, p);
      }
      assert p in q.driver;
    }
  }

  lemma InvListed(q: Q)
    requires Inv(q)
    ensures Placed(q) && BarriersListed(q)
  {
    hide Placed, BarriersListed;
  }

  lemma TaggedDrained(q: Q)
    requires Inv(q) && q.mode.Tag? && q.ord.started
    ensures q.ord.drain && q.orig.Rq?
  {
    hide Placed, ProxiesHeld, Numbered, Recorded, CurSeq;
  }

  /** In a draining sequence the head is let through exactly when it is a special request, a request older than the
      barrier while the queue drains, or the step whose turn it is. */
  lemma DrainingAdmits(mode: Mode, q: Q)
    requires mode.Drain? && Reachable(mode, q) && q.ord.started && |q.list| > 0
    ensures !NextTurn(q).1.Nothing? <==>
      || Special(q.list[0])
      || (q.list[0].Rq? && !q.ord.drain && Arrived(q.list[0]) < Arrived(q.orig))
      || (!q.list[0].Rq? && StepOf(q.list[0]) == CurSeq(q.ord))
  {
    hide Inv, CurSeq, OrigColor, Arrived, Reachable;
    var h := q.list[0];
    ReachableInv(mode, q);
    if !Special(h) {
      HeadNotOverdue(mode, q);
      Verdicts(q);
      NotDone(q);
      if h.Rq? {
        ColourIsAge(mode, q, h);
        DrainFirst(q);
      }
    }
  }

  lemma NotDone(q: Q)
    requires Inv(q) && q.ord.started
    ensures CurSeq(q.ord) != DONE
  {
    hide Placed, Coloured, Numbered, Recorded, CurSeq;
  }

  lemma DrainFirst(q: Q)
    requires q.ord.started
    ensures CurSeq(q.ord) == DRAIN <==> !q.ord.drain
    ensures CurSeq(q.ord) >= DRAIN
  {
  }

  lemma Verdicts(q: Q)
    requires q.mode.Drain? && q.ord.started && |q.list| > 0 && !Special(q.list[0])
    ensures NextTurn(q).1.Nothing? <==> ReqSeq(OrigColor(q), q.list[0]) > CurSeq(q.ord)
    ensures !q.list[0].Rq? ==> ReqSeq(OrigColor(q), q.list[0]) == StepOf(q.list[0])
    ensures q.list[0].Rq? ==> ReqSeq(OrigColor(q), q.list[0]) in {DRAIN, DONE}
    ensures CurSeq(q.ord) <= DONE
  {
    hide OrigColor;
  }

  /** The proxy of an empty barrier is never given to the driver. */
  lemma EmptyNeverGiven(mode: Mode, q: Q)
    requires Reachable(mode, q) && |q.list| > 0 && NextTurn(q).1 == Give(BarProxy)
    ensures NextTurn(q).0.ord.started && NextTurn(q).0.orig.Rq? && !NextTurn(q).0.orig.empty
  {
    hide Inv, DoOrdered, NextTurn;
    ReachableInv(mode, q);
    NextInv(q);
    NextGives(q);
    GivenProxy(NextTurn(q).0);
    NotEmpty(q);
  }

  lemma GivenProxy(q: Q)
    requires Inv(q) && BarProxy in q.started
    ensures q.ord.started && q.orig.Rq?
  {
    assert Held(q, BarProxy);
  }

  lemma NotEmpty(q: Q)
    requires |q.list| > 0 && NextTurn(q).1 == Give(BarProxy)
    ensures NextTurn(q).0.orig.Rq? ==> !NextTurn(q).0.orig.empty
  {
    hide DoOrdered;
  }

  // ----- progress -----

  /** With nothing outstanding, the head of the list is let through, in every mode. */
  lemma HeadAdmitted(q: Q)
    requires Inv(q) && Ahead(q.list) && |q.list| > 0 && q.driver == {} && q.unput == 0
    ensures !NextTurn(q).1.Nothing?
  {
    hide Inv, Ahead;
    if q.mode.Drain? {
      DrainHeadAdmitted(q.mode, q);
    } else if q.ord.started {
      NoOrderIdle(q);
      TaggedDrained(q);
      var p := SomeStepHeld(q);
      StepIsAhead(q, p);
      hide Complete;
    } else {
      hide Complete, StackSequence;
      IdleThen(q);
      if Barrier(q.list[0]) && q.mode.Tag? {
        TagStarts(q);
      }
    }
  }

  lemma NoOrderIdle(q: Q)
    requires Inv(q) && q.ord.started && !q.mode.Drain?
    ensures q.mode.Tag?
  {
  }

  lemma IdleThen(q: Q)
    requires Inv(q) && !q.ord.started
    ensures q.ord == IDLE
  {
  }

  lemma TagStarts(q: Q)
    requires |q.list| > 0 && q.list[0].Rq? && q.mode.Tag?
    ensures StartOrdered(q).ord.drain
  {
  }

  /** elv_next_request then finds a request, or leaves the list empty. */
  lemma NeverStuck(mode: Mode, q: Q)
    requires Reachable(mode, q) && q.driver == {} && q.unput == 0
    ensures NextRequest(q).1.Give? || NextRequest(q).0.list == []
  {
    hide Inv, Ahead, Reachable, NextRequest;
    ReachableAhead(mode, q);
    FetchGoesOn(q);
  }

  lemma {:induction false} FetchGoesOn(q: Q)
    requires Inv(q) && Ahead(q.list) && q.driver == {} && q.unput == 0
    ensures NextRequest(q).1.Give? || NextRequest(q).0.list == []
    decreases Work(q.list)
  {
    hide Inv, Ahead, NextTurn;
    if q.list != [] {
      HeadAdmitted(q);
      if NextTurn(q).1.Again? {
        NextTurnWorks(q);
        NextInv(q);
        NextAhead(q);
        AgainKeeps(q);
        FetchGoesOn(NextTurn(q).0);
      }
    }
  }

  // ----- which steps a sequence has -----

  /** What the last sequence to start left out. */
  predicate Skips(q: Q) {
    q.hist.begun > 0 && !q.mode.NoOrder? ==>
      && q.orig.Rq? && q.hist.begun <= |q.bars| && q.orig == q.bars[q.hist.begun - 1]
      && (PREFLUSH in q.hist.skipped <==> !q.mode.pre)
      && (POSTFLUSH in q.hist.skipped <==> !q.mode.post || q.orig.empty)
      && BAR !in q.hist.skipped && (q.mode.Tag? ==> DRAIN in q.hist.skipped)
  }

  lemma StepSkips(q: Q, s: Step)
    requires Inv(q) && Skips(q) && Enabled(q, s)
    ensures Skips(Apply(q, s))
  {
    hide Inv, Remove, InsertAt, DrainCheck, CompleteSeq, RequeueSlot, DispatchSlot, Skips;
    match s
    case SNext => NextSkips(q);
    case SComplete(r, err, put) => CompleteSkips(q, r, err, put);
    case _ => hide NextTurn, Complete; SameSkips(q, Apply(q, s));
  }

  lemma SameSkips(q: Q, q1: Q)
    requires Skips(q) && q1.mode == q.mode && q1.orig == q.orig
    requires q1.hist.begun == q.hist.begun && q1.hist.skipped == q.hist.skipped && q.bars <= q1.bars
    ensures Skips(q1)
  {
  }

  lemma CompleteSkips(q: Q, r: Req, err: int, put: bool)
    requires Skips(q)
    ensures Skips(Complete(q, r, err, put))
  {
    hide Skips, Remove, DrainCheck, CompleteSeq;
    SameSkips(q, Complete(q, r, err, put));
  }

  lemma NextSkips(q: Q)
    requires Inv(q) && Skips(q) && |q.list| > 0
    ensures Skips(NextTurn(q).0)
  {
    hide Inv, Skips, Complete, StartOrdered;
    if !q.ord.started && Barrier(q.list[0]) && !q.mode.NoOrder? {
      IdleThen(q);
      InvListed(q);
      StartSkips(q);
    } else if q.mode.NoOrder? {
      RefusedSkips(q);
    }
    var q1 := DoOrdered(q).0;
    CompleteSkips(q1, BarProxy, 0, true);
    forall r ensures Skips(q1.(started := q1.started + {r})) {
      SameSkips(q1, q1.(started := q1.started + {r}));
    }
  }

  lemma RefusedSkips(q: Q)
    requires q.mode.NoOrder? && |q.list| > 0
    ensures Skips(RefuseBarrier(q))
  {
  }

  lemma StartSkips(q: Q)
    requires q.ord == IDLE && |q.list| > 0 && Barrier(q.list[0]) && !q.mode.NoOrder?
    requires Placed(q) && BarriersListed(q)
    ensures Skips(StartOrdered(q))
  {
    HeadIsNext(q);
    hide Placed, BarriersListed;
  }

  /** The drain is left out in tagged modes, and when no file-system request is with the driver. */
  lemma DrainSkipped(q: Q)
    requires Placed(q) && q.ord == IDLE && |q.list| > 0 && Barrier(q.list[0]) && !q.mode.NoOrder?
    ensures DRAIN in StartOrdered(q).hist.skipped <==> q.mode.Tag? || forall r :: r in q.driver ==> !IsFs(r)
  {
    assert forall r :: r in q.driver && IsFs(r) ==> r in FsOf(q.driver);
    if forall r :: r in q.driver ==> !IsFs(r) {
      assert FsOf(q.driver) == {};
    }
    hide Barrier, IsFs;
  }

  lemma {:induction false} RunSkips(q: Q, run: seq<Step>, q1: Q)
    requires Inv(q) && Skips(q) && Runs(q, run, q1) && FsBarriersOnly(run)
    ensures Skips(q1)
    decreases |run|
  {
    hide Inv, Apply, Skips;
    if run != [] {
      StepInv(q, run[0]);
      StepSkips(q, run[0]);
      assert forall i :: 0 <= i < |run[1..]| ==> run[1..][i] == run[i + 1];
      RunSkips(Apply(q, run[0]), run[1..], q1);
    }
  }

  /** A sequence that has ended has written the barrier, flushed before it exactly when the mode asks for it, and
      flushed after it exactly when the mode asks for it and the barrier had data. */
  lemma FlushesDone(mode: Mode, q: Q)
    requires Reachable(mode, q) && !mode.NoOrder? && !q.ord.started && q.hist.begun > 0
    ensures q.hist.begun <= |q.bars| && q.orig == q.bars[q.hist.begun - 1] && q.orig.Rq?
    ensures BAR in q.hist.trace
    ensures PREFLUSH in q.hist.trace <==> mode.pre
    ensures POSTFLUSH in q.hist.trace <==> mode.post && !q.orig.empty
    ensures mode.Tag? ==> DRAIN !in q.hist.trace
  {
    hide Inv, Reachable;
    SequenceComplete(mode, q);
    ReachableSkips(mode, q);
    assert IsStep(PREFLUSH) && IsStep(POSTFLUSH) && IsStep(DRAIN);
  }

  lemma ReachableSkips(mode: Mode, q: Q)
    requires Reachable(mode, q)
    ensures q.mode == mode && Skips(q)
  {
    hide Inv;
    ReachableInv(mode, q);
    var run :| Runs(Init(mode), run, q) && FsBarriersOnly(run);
    InitInv(mode);
    RunSkips(Init(mode), run, q);
  }
}

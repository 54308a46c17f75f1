/** The steps of the barrier protocol that move a sequence forward: the completion of ordinary
    requests and of the three embedded ones, the end of the drain, the start of a sequence, and
    the turn of elv_next_request that hands out the head.  Each keeps the invariant, which is
    shown part by part: what is placed where, what is awaited, and what the history records.
    At the end one lemma covers every step of a run. */
module OrderedSequence {
  import opened Lists
  import opened OrderedQueue
  import opened OrderedInvariant
  import opened OrderedSteps

  /** The queue once `r` has left both the list and the driver. */
  function Gone(q: Q, r: Req): Q {
    q.(list := if r in q.list then Remove(q.list, r) else q.list,
       driver := q.driver - {r}, started := q.started - {r},
       inFlight := if r in q.driver then q.inFlight - B2I(Accounted(q, r)) else q.inFlight)
  }

  lemma CompleteUnfolds(q: Q, r: Req, err: int, put: bool)
    requires Placed(q) && Held(q, r)
    ensures Complete(q, r, err, put) ==
            if !r.Rq? then CompleteSeq(DrainCheck(Gone(q, r)), StepOf(r), err)
            else if r.fs || put then DrainCheck(Gone(q, r))
            else Gone(q, r).(unput := q.unput + 1)
  {
    hide Placed, Remove, CompleteSeq, DrainCheck;
    NotBoth(q);
    if r in q.list {
      assert q.driver + {r} - {r} == q.driver - {r};
    }
  }

  lemma NotBoth(q: Q)
    requires Placed(q)
    ensures forall r :: r in q.list ==> r !in q.driver
  {
  }

  lemma GonePlaced(q: Q, r: Req)
    requires Placed(q) && Held(q, r)
    ensures Placed(Gone(q, r))
    ensures forall x :: Live(Gone(q, r), x) <==> Live(q, x) && x != r
    ensures forall x :: Held(Gone(q, r), x) <==> Held(q, x) && x != r
    ensures forall x :: x != r ==> (x in Gone(q, r).list <==> x in q.list)
  {
    if r in q.list {
      RemoveReq(q.list, r);
      assert q.driver - {r} == q.driver;
    } else {
      FsOfRemove(q.driver, r);
    }
  }

  lemma GoneDraining(q: Q, r: Req)
    requires Placed(q) && Held(q, r) && Draining(q)
    ensures Draining(Gone(q, r)) && (InOrder(q) ==> InOrder(Gone(q, r)))
  {
    GonePlaced(q, r);
    if r in q.list {
      SortedRemove(q.hist.begun, q.list, r);
    }
    DrainingFrame(q, Gone(q, r));
  }

  /** Everything but `ProxiesHeld`. */
  ghost predicate Base(q: Q) {
    Placed(q) && Coloured(q) && BarriersListed(q) && Numbered(q) && Recorded(q)
  }

  lemma GoneBase(q: Q, r: Req)
    requires Base(q) && Held(q, r) && !Barrier(r)
    ensures Base(Gone(q, r))
  {
    var q1 := Gone(q, r);
    GonePlaced(q, r);
    ColouredFrame(q, q1);
    NumberedFrame(q, q1);
    BarriersFrame(q, q1);
    RecordedFrame(q, q1);
  }

  // ----- setting a bit of the sequence -----

  /** The embedded requests are where they should be once `step` counts as done. */
  ghost predicate HeldBut(q: Q, step: nat) {
    && (Held(q, PreFlush) <==> q.ord.started && !q.ord.pre && step != PREFLUSH)
    && (Held(q, BarProxy) <==> q.ord.started && !q.ord.bar && step != BAR)
    && (Held(q, PostFlush) <==> q.ord.started && !q.ord.post && step != POSTFLUSH)
  }

  lemma CompleteSeqSteps(q: Q, step: nat, err: int)
    requires StepsRecorded(q) && q.ord.started && IsStep(step) && !HasBit(q.ord, step)
    ensures StepsRecorded(CompleteSeq(q, step, err))
  {
    FirstErrorAppend(q.hist.errs, err);
    var q1 := CompleteSeq(q, step, err);
    assert forall s :: Marked(q1, s) <==> Marked(q, s) || s == step;
  }

  lemma CompleteSeqEnds(q: Q, step: nat, err: int)
    requires EndsRecorded(q) && BarriersListed(q) && q.ord.started
    ensures EndsRecorded(CompleteSeq(q, step, err))
  {
  }

  lemma CompleteSeqHeld(q: Q, step: nat, err: int)
    requires HeldBut(q, step) && q.ord.started && IsStep(step)
    ensures ProxiesHeld(CompleteSeq(q, step, err))
  {
    var q1 := CompleteSeq(q, step, err);
    assert forall x :: Held(q1, x) <==> Held(q, x);
  }

  lemma CompleteSeqListed(q: Q, step: nat, err: int)
    requires BarriersListed(q) && q.ord.started && IsStep(step)
    ensures BarriersListed(CompleteSeq(q, step, err))
  {
    BarriersFrame(q, CompleteSeq(q, step, err));
  }

  lemma CompleteSeqWf(q: Q, step: nat, err: int)
    requires Base(q) && HeldBut(q, step) && q.ord.started && IsStep(step) && !HasBit(q.ord, step)
    ensures Wf(CompleteSeq(q, step, err))
  {
    var q1 := CompleteSeq(q, step, err);
    CompleteSeqSteps(q, step, err);
    CompleteSeqEnds(q, step, err);
    CompleteSeqHeld(q, step, err);
    CompleteSeqListed(q, step, err);
    ColouredFrame(q, q1);
    NumberedFrame(q, q1);
  }

  /** In a draining mode the step that ends is the current one, and nothing old is left. */
  lemma CompleteSeqDraining(q: Q, step: nat, err: int)
    requires Draining(q) && q.ord.started && CurSeq(q.ord) == step && step != DONE
    requires forall r :: Live(q, r) && Plain(r) ==> r.epoch >= q.hist.begun
    requires forall r :: r in q.started ==> Special(r)
    ensures Draining(CompleteSeq(q, step, err))
  {
    forall r | Live(CompleteSeq(q, step, err), r) && Plain(r) ensures r.epoch >= q.hist.begun {
      assert Live(q, r);
    }
  }

  lemma CompleteSeqInOrder(q: Q, step: nat, err: int)
    requires InOrder(q) && q.ord.started && CurSeq(q.ord) == step && step != DONE
    ensures InOrder(CompleteSeq(q, step, err))
  {
  }

  // ----- the end of the drain -----

  /** Nothing in flight and a head that is not due for draining: all older requests are done. */
  lemma NothingOld(q: Q)
    requires Placed(q) && Coloured(q) && BarriersListed(q) && Draining(q)
    requires q.ord.started && !q.ord.drain && q.inFlight == 0
    requires |q.list| > 0 && ReqSeq(OrigColor(q), q.list[0]) > DRAIN
    ensures forall r :: Live(q, r) && Plain(r) ==> r.epoch >= q.hist.begun
    ensures forall r :: r in q.started ==> Special(r)
  {
    assert Live(q, q.list[0]);
    assert Ranked(q.list[0]) && Rank(q.hist.begun, q.list[0]) > 8 * (q.hist.begun - 1);
    assert forall r :: r in q.driver ==> !IsFs(r) by {
      assert FsOf(q.driver) == {};
      assert forall r :: r in q.driver && IsFs(r) ==> r in FsOf(q.driver);
    }
    forall r | Live(q, r) && Plain(r) ensures r.epoch >= q.hist.begun {
      if r in q.list {
        var i :| 0 <= i < |q.list| && q.list[i] == r;
        assert Rank(q.hist.begun, q.list[0]) <= Rank(q.hist.begun, r);
      }
    }
    forall r | r in q.started ensures Special(r) {
      assert Live(q, r);
    }
  }

  lemma InFlightNat(q: Q)
    requires Placed(q)
    ensures q.inFlight >= 0
  {
  }

  /** elv_completed_request re-establishes `Awaited`. */
  lemma DrainCheckInv(q: Q)
    requires Wf(q) && (q.mode.Drain? ==> Draining(q) && InOrder(q))
    ensures Inv(DrainCheck(q))
  {
    hide Placed, ProxiesHeld, Coloured, Numbered, StepsRecorded, EndsRecorded, Draining, InOrder, CompleteSeq;
    if q.mode.Drain? && q.ord.started && !q.ord.drain {
      ProxyWaits(q);
      InFlightNat(q);
      if DrainEnds(q) {
        DrainDone(q);
      }
    }
  }

  lemma DrainDone(q: Q)
    requires Wf(q) && Draining(q) && InOrder(q) && q.mode.Drain?
    requires q.ord.started && !q.ord.drain && q.inFlight == 0
    requires |q.list| > 0 && ReqSeq(OrigColor(q), q.list[0]) > DRAIN
    ensures Inv(CompleteSeq(q, DRAIN, 0))
  {
    hide Placed, ProxiesHeld, HeldBut, Coloured, BarriersListed, Numbered, Recorded, Draining, InOrder, Awaited,
      CompleteSeq;
    HeldBeforeDrain(q);
    CompleteSeqWf(q, DRAIN, 0);
    NothingOld(q);
    CompleteSeqDraining(q, DRAIN, 0);
    CompleteSeqInOrder(q, DRAIN, 0);
    CompleteSeqAwaited(q, DRAIN, 0);
  }

  lemma HeldBeforeDrain(q: Q)
    requires ProxiesHeld(q)
    ensures HeldBut(q, DRAIN)
  {
  }

  lemma CompleteSeqAwaited(q: Q, step: nat, err: int)
    requires q.ord.drain || step == DRAIN
    ensures Awaited(CompleteSeq(q, step, err))
  {
  }

  lemma LatePutInv(q: Q)
    requires Inv(q) && q.unput > 0
    ensures Inv(LatePut(q))
  {
    var q1 := q.(unput := q.unput - 1);
    KeepFrame(q, q1);
    if q.mode.Drain? {
      DrainingFrame(q, q1);
    }
    DrainCheckInv(q1);
  }

  lemma PartialBarInv(q: Q, err: int)
    requires Inv(q) && Held(q, BarProxy)
    ensures Inv(PartialBar(q, err))
  {
    hide Placed, ProxiesHeld, Coloured, BarriersListed, Numbered, Recorded, Draining, InOrder, Awaited, PartialBar,
      Sorted;
    var q1 := PartialBar(q, err);
    PartialKeeps(q, err);
    PartialRecorded(q, err);
    ColouredFrame(q, q1);
    NumberedFrame(q, q1);
    BarriersFrame(q, q1);
    if q.mode.Drain? {
      DrainingSorted(q);
      DrainingFrame(q, q1);
    }
  }

  lemma PartialRecorded(q: Q, err: int)
    requires Recorded(q) && q.ord.started
    ensures Recorded(PartialBar(q, err))
  {
    FirstErrorAppend(q.hist.errs, err);
  }

  lemma PartialKeeps(q: Q, err: int)
    requires ProxiesHeld(q) && BarriersListed(q) && Held(q, BarProxy)
    ensures
      var q1 := PartialBar(q, err);
      && q1 == q.(orderr := q1.orderr, hist := q1.hist) && q1.hist.begun == q.hist.begun
      && q.ord.started && (q.ord.started ==> CurSeq(q.ord) != DONE)
      && (Placed(q) ==> Placed(q1)) && ProxiesHeld(q1)
      && (InOrder(q) ==> InOrder(q1)) && (Awaited(q) ==> Awaited(q1))
  {
    hide CurSeq;
  }

  // ----- completions -----

  lemma CompleteRqInv(q: Q, r: Req, err: int, put: bool)
    requires Inv(q) && Held(q, r) && r.Rq? && !Barrier(r)
    ensures Inv(Complete(q, r, err, put))
  {
    hide Placed, Coloured, BarriersListed, Numbered, StepsRecorded, EndsRecorded, Draining, InOrder, Awaited,
      DrainCheck;
    var q1 := Gone(q, r);
    CompleteUnfolds(q, r, err, put);
    GoneBase(q, r);
    GonePlaced(q, r);
    if q.mode.Drain? {
      GoneDraining(q, r);
    }
    if r.fs || put {
      DrainCheckInv(q1);
    } else {
      LaterPutInv(q, q1);
    }
  }

  lemma LaterPutInv(q: Q, q1: Q)
    requires Wf(q1) && (q1.mode.Drain? ==> Draining(q1) && InOrder(q1))
    ensures Inv(q1.(unput := q.unput + 1))
  {
    var q2 := q1.(unput := q.unput + 1);
    KeepFrame(q1, q2);
    if q1.mode.Drain? {
      DrainingFrame(q1, q2);
      if q1.ord.started && !q1.ord.drain {
        ProxyWaits(q1);
      }
    }
  }

  /** A step of the sequence ends; its bit was not set before. */
  lemma CompleteProxyWf(q: Q, p: Req, err: int)
    requires Wf(q) && !p.Rq? && Held(q, p) && q.ord.drain
    ensures Complete(q, p, err, true) == CompleteSeq(Gone(q, p), StepOf(p), err)
    ensures !HasBit(q.ord, StepOf(p))
    ensures Wf(Complete(q, p, err, true))
  {
    hide Complete, BarriersListed, Numbered, Recorded, Coloured, Placed, Held;
    var q1 := Gone(q, p);
    CompleteUnfolds(q, p, err, true);
    GoneBase(q, p);
    assert HeldBut(q1, StepOf(p)) by { GonePlaced(q, p); }
    CompleteSeqWf(q1, StepOf(p), err);
  }

  lemma CompleteProxyInv(q: Q, p: Req, err: int)
    requires Inv(q) && !p.Rq? && Held(q, p)
    requires q.mode.Drain? ==> CurSeq(q.ord) == StepOf(p)
    ensures Inv(Complete(q, p, err, true))
  {
    hide Placed, ProxiesHeld, Coloured, BarriersListed, Numbered, Recorded, Draining, InOrder, Awaited, Complete,
      CompleteSeq, Held;
    ProxyDrained(q, p);
    CompleteProxyWf(q, p, err);
    if q.mode.Drain? {
      CompleteProxyDraining(q, p, err);
    }
    CompleteSeqAwaited(Gone(q, p), StepOf(p), err);
  }

  lemma ProxyDrained(q: Q, p: Req)
    requires ProxiesHeld(q) && BarriersListed(q) && !p.Rq? && Held(q, p)
    requires q.mode.Drain? ==> CurSeq(q.ord) == StepOf(p)
    ensures q.ord.drain && forall err: int :: CompleteSeq(Gone(q, p), StepOf(p), err).mode == q.mode
  {
    hide Held, Remove;
  }

  lemma CompleteProxyDraining(q: Q, p: Req, err: int)
    requires Placed(q) && Draining(q) && InOrder(q) && !p.Rq? && Held(q, p)
    requires CurSeq(q.ord) == StepOf(p)
    ensures Draining(CompleteSeq(Gone(q, p), StepOf(p), err))
    ensures InOrder(CompleteSeq(Gone(q, p), StepOf(p), err))
  {
    var q1 := Gone(q, p);
    GonePlaced(q, p);
    GoneDraining(q, p);
    StepsAlone(q1, p);
    CompleteSeqDraining(q1, StepOf(p), err);
    CompleteSeqInOrder(q1, StepOf(p), err);
  }

  lemma StepsAlone(q1: Q, p: Req)
    requires Placed(q1) && Draining(q1) && !p.Rq? && CurSeq(q1.ord) == StepOf(p) && !Held(q1, p)
    ensures forall r :: Live(q1, r) && Plain(r) ==> r.epoch >= q1.hist.begun
    ensures forall r :: r in q1.started ==> Special(r)
  {
    forall r | r in q1.started ensures Special(r) {
      assert Live(q1, r) && Held(q1, r);
    }
  }

  // ----- starting a sequence -----

  /** The barrier at the head is the oldest one waiting. */
  lemma HeadIsNext(q: Q)
    requires Placed(q) && BarriersListed(q) && |q.list| > 0 && Barrier(q.list[0])
    ensures q.hist.begun < |q.bars| && q.list[0] == q.bars[q.hist.begun]
  {
    var b := q.bars[q.hist.begun];
    var j :| 0 <= j < |q.list| && q.list[j] == b;
  }

  lemma TailFacts(l: seq<Req>)
    requires |l| > 0 && NoDup(l)
    ensures NoDup(l[1..]) && (BarrierOrder(l) ==> BarrierOrder(l[1..]))
    ensures forall x :: x in l[1..] <==> x in l && x != l[0]
    ensures forall b :: Sorted(b, l) ==> Sorted(b, l[1..])
  {
    forall x | x in l && x != l[0] ensures x in l[1..] {
      var i :| 0 <= i < |l| && l[i] == x;
      assert l[1..][i - 1] == x;
    }
  }

  lemma PushOne(l: seq<Req>, p: Req)
    requires NoDup(l) && BarrierOrder(l) && p !in l && !Barrier(p)
    ensures NoDup([p] + l) && BarrierOrder([p] + l)
    ensures forall x :: x in [p] + l <==> x in l || x == p
  {
    InsertReq(l, 0, p);
    assert InsertAt(l, 0, p) == [p] + l;
  }

  lemma ProxiesPushed(mode: Mode, empty: bool, l: seq<Req>)
    requires !mode.NoOrder?
    ensures var l1 := [BarProxy] + (if mode.post && !empty then [PostFlush] + l else l);
            Proxies(mode, empty) + l == if mode.pre then [PreFlush] + l1 else l1
  {
  }

  lemma PushFacts(mode: Mode, empty: bool, l: seq<Req>)
    requires !mode.NoOrder? && NoDup(l) && BarrierOrder(l)
    requires PreFlush !in l && BarProxy !in l && PostFlush !in l
    ensures NoDup(Proxies(mode, empty) + l) && BarrierOrder(Proxies(mode, empty) + l)
    ensures forall x :: x in Proxies(mode, empty) + l <==>
              || x in l || x == BarProxy
              || (mode.pre && x == PreFlush) || (mode.post && !empty && x == PostFlush)
  {
    ProxiesPushed(mode, empty, l);
    if mode.post && !empty { PushOne(l, PostFlush); }
    var l1 := if mode.post && !empty then [PostFlush] + l else l;
    PushOne(l1, BarProxy);
    if mode.pre { PushOne([BarProxy] + l1, PreFlush); }
  }

  /** The steps stacked at the head come before everything behind the barrier. */
  lemma PushSorted(mode: Mode, empty: bool, begun: nat, l: seq<Req>)
    requires !mode.NoOrder? && begun > 0 && Sorted(begun, l)
    requires forall i :: 0 <= i < |l| && Ranked(l[i]) ==> Rank(begun, l[i]) >= 8 * begun
    ensures Sorted(begun, Proxies(mode, empty) + l)
  {
    var m := Proxies(mode, empty) + l;
    var n := |Proxies(mode, empty)|;
    assert forall i :: n <= i < |m| ==> m[i] == l[i - n];
  }

  lemma StartMembers(q: Q)
    requires Placed(q) && ProxiesHeld(q) && !q.ord.started
    requires |q.list| > 0 && Barrier(q.list[0]) && !q.mode.NoOrder?
    ensures var q1 := StartOrdered(q);
            && NoDup(q1.list) && BarrierOrder(q1.list)
            && (forall x :: x in q1.list <==> (x in q.list && x != q.list[0])
                                              || x in Proxies(q.mode, q.list[0].empty))
            && q1.started == q.started && q1.sched == q.sched && q1.driver == q.driver
            && q1.bars == q.bars && q1.inFlight == q.inFlight && q.soft <= q1.soft
            && (forall x :: x in Proxies(q.mode, q.list[0].empty) ==> x in q1.soft)
  {
    assert !Held(q, PreFlush) && !Held(q, BarProxy) && !Held(q, PostFlush);
    TailFacts(q.list);
    PushFacts(q.mode, q.list[0].empty, q.list[1..]);
    assert q.started - (set p | p in Proxies(q.mode, q.list[0].empty)) == q.started;
  }

  /** What stacking the sequence does to the list, and that nothing else moves. */
  ghost predicate Stacked(q: Q, q1: Q) {
    && |q.list| > 0 && Barrier(q.list[0])
    && NoDup(q1.list) && BarrierOrder(q1.list)
    && (forall x :: x in q1.list && !x.Rq? ==> x !in q.list && x in q1.soft)
    && (forall x: Req :: x.Rq? ==> (x in q1.list <==> x in q.list && x != q.list[0]))
    && q1.started == q.started && q1.sched == q.sched && q1.driver == q.driver
    && q1.bars == q.bars && q1.inFlight == q.inFlight && q.soft <= q1.soft
  }

  lemma StackedPlaced(q: Q, q1: Q)
    requires Placed(q) && Stacked(q, q1)
    requires !Held(q, PreFlush) && !Held(q, BarProxy) && !Held(q, PostFlush)
    ensures Placed(q1)
    ensures forall x: Req :: x.Rq? ==> (Live(q1, x) <==> Live(q, x) && x != q.list[0])
  {
  }

  lemma StartPlaced(q: Q)
    requires Placed(q) && ProxiesHeld(q) && !q.ord.started
    requires |q.list| > 0 && Barrier(q.list[0]) && !q.mode.NoOrder?
    ensures Placed(StartOrdered(q)) && Stacked(q, StartOrdered(q))
    ensures forall x: Req :: x.Rq? ==> (Live(StartOrdered(q), x) <==> Live(q, x) && x != q.list[0])
  {
    hide StackSequence, Placed;
    assert !Held(q, PreFlush) && !Held(q, BarProxy) && !Held(q, PostFlush);
    hide Placed, ProxiesHeld, StartOrdered;
    StartMembers(q);
    assert Stacked(q, StartOrdered(q));
    StackedPlaced(q, StartOrdered(q));
  }

  lemma StartHeld(q: Q)
    requires Placed(q) && ProxiesHeld(q) && q.ord == IDLE
    requires |q.list| > 0 && Barrier(q.list[0]) && !q.mode.NoOrder?
    ensures ProxiesHeld(StartOrdered(q))
  {
    hide Proxies, NoDup, BarrierOrder;
    StartMembers(q);
    WhichProxies(q.mode, q.list[0].empty);
  }

  lemma WhichProxies(mode: Mode, empty: bool)
    requires !mode.NoOrder?
    ensures PreFlush in Proxies(mode, empty) <==> mode.pre
    ensures BarProxy in Proxies(mode, empty)
    ensures PostFlush in Proxies(mode, empty) <==> mode.post && !empty
  {
  }

  lemma StartListed(q: Q)
    requires Placed(q) && BarriersListed(q) && !q.ord.started
    requires |q.list| > 0 && Barrier(q.list[0]) && !q.mode.NoOrder?
    requires forall x: Req :: x.Rq? ==>
               (x in StartOrdered(q).list <==> x in q.list && x != q.list[0])
    ensures BarriersListed(StartOrdered(q))
  {
    HeadIsNext(q);
  }

  lemma StartRecorded(q: Q)
    requires Placed(q) && BarriersListed(q) && Recorded(q) && !q.ord.started
    requires |q.list| > 0 && Barrier(q.list[0]) && !q.mode.NoOrder?
    ensures Recorded(StartOrdered(q))
  {
    hide Placed, NoDup;
    HeadIsNext(q);
  }

  /** What stands behind a barrier at the head is newer. */
  lemma BehindHead(q: Q, i: nat)
    requires Placed(q) && ProxiesHeld(q) && BarriersListed(q) && Sorted(q.hist.begun, q.list)
    requires !q.ord.started && 0 < i < |q.list| && Barrier(q.list[0]) && Ranked(q.list[i])
    ensures q.list[i].Rq? && q.list[i].epoch > q.hist.begun
  {
    HeadIsNext(q);
    assert Held(q, q.list[i]);
    assert q.list[i].Rq?;
    assert Rank(q.hist.begun, q.list[0]) <= Rank(q.hist.begun, q.list[i]);
  }

  lemma StartSorted(q: Q)
    requires Placed(q) && ProxiesHeld(q) && BarriersListed(q) && Sorted(q.hist.begun, q.list)
    requires !q.ord.started && |q.list| > 0 && Barrier(q.list[0]) && !q.mode.NoOrder?
    ensures Sorted(q.hist.begun + 1, StartOrdered(q).list)
  {
    TailRanked(q);
    TailSorted(q);
    StartList(q);
    hide *;
    PushSorted(q.mode, q.list[0].empty, q.hist.begun + 1, q.list[1..]);
  }

  lemma StartList(q: Q)
    requires |q.list| > 0 && q.list[0].Rq? && !q.mode.NoOrder?
    ensures StartOrdered(q).list == Proxies(q.mode, q.list[0].empty) + q.list[1..]
  {
  }

  lemma TailRanked(q: Q)
    requires Placed(q) && ProxiesHeld(q) && BarriersListed(q) && Sorted(q.hist.begun, q.list)
    requires !q.ord.started && |q.list| > 0 && Barrier(q.list[0])
    ensures var l := q.list[1..];
            forall i :: 0 <= i < |l| && Ranked(l[i]) ==>
              l[i].Rq? && Rank(q.hist.begun + 1, l[i]) >= 8 * (q.hist.begun + 1)
  {
    var l := q.list[1..];
    forall i | 0 <= i < |l| && Ranked(l[i])
      ensures l[i].Rq? && Rank(q.hist.begun + 1, l[i]) >= 8 * (q.hist.begun + 1)
    {
      BehindHead(q, i + 1);
      hide Placed, ProxiesHeld, BarriersListed, Sorted;
    }
  }

  lemma TailSorted(q: Q)
    requires Placed(q) && ProxiesHeld(q) && BarriersListed(q) && Sorted(q.hist.begun, q.list)
    requires !q.ord.started && |q.list| > 0 && Barrier(q.list[0])
    ensures Sorted(q.hist.begun + 1, q.list[1..])
  {
    hide ProxiesHeld, BarriersListed, Placed;
    TailRanked(q);
    assert forall i :: 0 <= i < |q.list[1..]| ==> q.list[1..][i] == q.list[i + 1];
  }

  lemma StartDraining(q: Q)
    requires Wf(q) && Draining(q) && q.mode.Drain? && !q.ord.started
    requires |q.list| > 0 && Barrier(q.list[0])
    ensures Draining(StartOrdered(q))
  {
    hide Placed, ProxiesHeld, Coloured, BarriersListed, Numbered, Recorded, Sorted, StartOrdered, Live;
    var q1 := StartOrdered(q);
    StartPlaced(q);
    StartSorted(q);
    StartFields(q);
    IdleBefore(q);
    forall r | Live(q1, r) && Plain(r)
      ensures r.epoch > q.hist.begun || (!q1.ord.drain && r.epoch == q.hist.begun)
    {
      StartOlder(q, r);
    }
  }

  lemma IdleBefore(q: Q)
    requires BarriersListed(q) && !q.ord.started
    ensures q.ord == IDLE
  {
  }

  lemma StartFields(q: Q)
    requires |q.list| > 0 && q.list[0].Rq? && !q.mode.NoOrder?
    ensures
      var q1 := StartOrdered(q);
      && q1.hist.begun == q.hist.begun + 1 && q1.ord.started && q1.started <= q.started
      && (q.ord == IDLE && q.mode.Drain? && q1.ord.drain ==> q.inFlight <= 0)
  {
  }

  /** What is older than the barrier at the head is at the driver. */
  lemma StartOlder(q: Q, r: Req)
    requires Placed(q) && ProxiesHeld(q) && BarriersListed(q) && Draining(q)
    requires !q.ord.started && |q.list| > 0 && Barrier(q.list[0]) && Live(q, r) && Plain(r)
    ensures r.epoch > q.hist.begun || (q.inFlight > 0 && r.epoch == q.hist.begun)
  {
    HeadIsNext(q);
    if r in q.driver {
      assert r in FsOf(q.driver);
    } else if r in q.list {
      var i :| 0 <= i < |q.list| && q.list[i] == r;
      BehindHead(q, i);
    }
  }

  lemma StartInv(q: Q)
    requires Inv(q) && !q.ord.started && |q.list| > 0 && Barrier(q.list[0]) && !q.mode.NoOrder?
    ensures Inv(StartOrdered(q))
  {
    var q1 := StartOrdered(q);
    StartPlaced(q);
    StartHeld(q);
    StartListed(q);
    StartRecorded(q);
    ColouredFrame(q, q1);
    NumberedFrame(q, q1);
    if q.mode.Drain? {
      StartDraining(q);
    }
  }

  // QUEUE_ORDERED_NONE

  lemma DropPlaced(q: Q)
    requires Placed(q) && ProxiesHeld(q) && |q.list| > 0 && Barrier(q.list[0])
    ensures Placed(RefuseBarrier(q)) && ProxiesHeld(RefuseBarrier(q))
    ensures forall x :: Live(RefuseBarrier(q), x) ==> Live(q, x)
  {
    TailFacts(q.list);
  }

  lemma DropListed(q: Q)
    requires Placed(q) && BarriersListed(q) && Recorded(q) && q.mode.NoOrder?
    requires |q.list| > 0 && Barrier(q.list[0])
    ensures BarriersListed(RefuseBarrier(q)) && Recorded(RefuseBarrier(q))
  {
    HeadIsNext(q);
    TailFacts(q.list);
  }

  lemma DropInv(q: Q)
    requires Inv(q) && q.mode.NoOrder? && |q.list| > 0 && Barrier(q.list[0]) && !q.ord.started
    ensures Inv(DoOrdered(q).0)
  {
    hide Placed, ProxiesHeld, BarriersListed, Coloured, Numbered, StepsRecorded, EndsRecorded;
    var q1 := RefuseBarrier(q);
    DropPlaced(q);
    DropListed(q);
    ColouredFrame(q, q1);
    NumberedFrame(q, q1);
  }

  // ----- elv_next_request -----

  /** The driver is given `r`. */
  lemma GiveInv(q: Q, r: Req)
    requires Inv(q) && r in q.list && !Barrier(r)
    requires q.mode.Drain? && Plain(r) ==> r.epoch == q.hist.begun - Ending(q)
    requires q.mode.Drain? && !r.Rq? ==> CurSeq(q.ord) == StepOf(r)
    ensures Inv(q.(started := q.started + {r}))
  {
    hide Coloured, Numbered, BarriersListed, StepsRecorded, EndsRecorded;
    var q1 := q.(started := q.started + {r});
    KeepFrame(q, q1);
  }

  /** In a draining mode a request passes only if it is due. */
  lemma PassIsDue(q: Q)
    requires Inv(q) && q.mode.Drain? && |q.list| > 0
    requires q.ord.started ==> Special(q.list[0]) || ReqSeq(OrigColor(q), q.list[0]) <= CurSeq(q.ord)
    requires !q.ord.started ==> !Barrier(q.list[0])
    ensures !Barrier(q.list[0])
    ensures Plain(q.list[0]) ==> q.list[0].epoch == q.hist.begun - Ending(q)
    ensures !q.list[0].Rq? ==> CurSeq(q.ord) == StepOf(q.list[0])
  {
    var h := q.list[0];
    assert Live(q, h);
    if !h.Rq? {
      assert Held(q, h);
    } else if q.ord.started && h.fs {
      ColourTells(q, 0);
    } else if Plain(h) && h.epoch > q.hist.begun {
      BarrierBefore(q, 0);
      assert false;
    }
  }

  lemma PassInv(q: Q, r: Req)
    requires Inv(q) && |q.list| > 0 && r == q.list[0] && !Barrier(r)
    requires q.mode.Drain? && Plain(r) ==> r.epoch == q.hist.begun - Ending(q)
    requires q.mode.Drain? && !r.Rq? ==> CurSeq(q.ord) == StepOf(r)
    ensures Inv(if r.BarProxy? && q.orig.Rq? && q.orig.empty then Complete(q, BarProxy, 0, true)
                else q.(started := q.started + {r}))
  {
    if r.BarProxy? && q.orig.Rq? && q.orig.empty {
      assert Held(q, r);
      CompleteProxyInv(q, r, 0);
    } else {
      GiveInv(q, r);
    }
  }

  /** A sequence that need not drain is at its first queued step. */
  lemma StartHead(q: Q)
    requires q.ord == IDLE && |q.list| > 0 && Barrier(q.list[0]) && !q.mode.NoOrder?
    ensures var q1 := StartOrdered(q);
            && |q1.list| > 0 && !q1.list[0].Rq?
            && q1.mode == q.mode && q1.orig == q.list[0]
            && (q1.ord.drain ==> CurSeq(q1.ord) == StepOf(q1.list[0]))
  {
  }

  lemma StartTurnInv(q: Q)
    requires q.ord == IDLE && |q.list| > 0 && Barrier(q.list[0]) && !q.mode.NoOrder?
    requires Inv(StartOrdered(q))
    ensures Inv(NextTurn(q).0)
  {
    hide Inv, StartOrdered, Complete;
    StartHead(q);
    var q1 := StartOrdered(q);
    if q1.ord.drain {
      PassInv(q1, q1.list[0]);
      assert NextTurn(q).0 == if q1.list[0].BarProxy? && q1.orig.empty
                              then Complete(q1, BarProxy, 0, true)
                              else q1.(started := q1.started + {q1.list[0]});
    }
  }

  lemma PassTurnInv(q: Q)
    requires Inv(q) && |q.list| > 0 && DoOrdered(q) == (q, Pass(q.list[0]))
    requires !q.ord.started ==> !Barrier(q.list[0])
    ensures Inv(NextTurn(q).0)
  {
    if q.mode.Drain? {
      PassIsDue(q);
    }
    PassInv(q, q.list[0]);
  }

  lemma NextCases(q: Q)
    requires |q.list| > 0
    ensures !(!q.ord.started && Barrier(q.list[0])) ==>
              DoOrdered(q) == (q, Pass(q.list[0])) || NextTurn(q).0 == q
    ensures !q.ord.started && Barrier(q.list[0]) && q.mode.NoOrder? ==>
              NextTurn(q).0 == DoOrdered(q).0
  {
  }

  lemma NextInv(q: Q)
    requires Inv(q) && |q.list| > 0
    ensures Inv(NextTurn(q).0)
  {
    hide Placed, ProxiesHeld, Coloured, Numbered, StepsRecorded, EndsRecorded, Draining, InOrder, Awaited, NextTurn,
      StartOrdered;
    NextCases(q);
    if q.ord.started || !Barrier(q.list[0]) {
      if NextTurn(q).0 != q { PassTurnInv(q); }
    } else if q.mode.NoOrder? {
      DropInv(q);
    } else {
      StartInv(q);
      StartTurnInv(q);
    }
  }

  // ----- all steps -----

  lemma AddInv(q: Q, s: Step)
    requires Inv(q) && Enabled(q, s)
    requires s.SAddFs? || s.SAddSpecial? || s.SDispatch? || s.SNext?
    requires s.SAddSpecial? ==> !s.hard
    ensures Inv(Apply(q, s))
  {
    hide Inv, AddFs, AddSpecial, Dispatch, NextTurn;
    match s
    case SAddFs(hard, empty, sorted) => AddFsInv(q, hard, empty, sorted);
    case SAddSpecial(_, front) => AddSpecialInv(q, front);
    case SDispatch(r, pos) => DispatchInv(q, r, pos);
    case SNext => NextInv(q);
  }

  lemma StartedHeld(q: Q, r: Req)
    requires Placed(q) && r in q.started
    ensures Held(q, r) && !Barrier(r)
    ensures Draining(q) && !r.Rq? ==> CurSeq(q.ord) == StepOf(r)
  {
  }

  lemma DriverInv(q: Q, s: Step)
    requires Inv(q) && Enabled(q, s)
    requires s.SDequeue? || s.SRequeue? || s.SComplete? || s.SPartialBar? || s.SLatePut?
    ensures Inv(Apply(q, s))
  {
    hide Placed, ProxiesHeld, Coloured, BarriersListed, Numbered, StepsRecorded, EndsRecorded, Draining, InOrder,
      Awaited, Dequeue, Requeue, LatePut, PartialBar;
    match s
    case SDequeue(r) => DequeueInv(q, r);
    case SRequeue(r) => RequeueInv(q, r);
    case SComplete(r, err, put) =>
      StartedHeld(q, r);
      if r.Rq? { CompleteRqInv(q, r, err, put); } else { CompleteProxyInv(q, r, err); }
    case SPartialBar(err) =>
      StartedHeld(q, BarProxy);
      PartialBarInv(q, err);
    case SLatePut => LatePutInv(q);
  }

  /** Every step keeps the invariant, as long as no special request toggles the colour. */
  lemma StepInv(q: Q, s: Step)
    requires Inv(q) && Enabled(q, s) && (s.SAddSpecial? ==> !s.hard)
    ensures Inv(Apply(q, s))
  {
    hide Inv, Apply;
    if s.SAddFs? || s.SAddSpecial? || s.SDispatch? || s.SNext? { AddInv(q, s); } else { DriverInv(q, s); }
  }
}

/** A hard-barrier request that is not a file-system request, added at the wrong moment, makes the barrier
    protocol unsafe.  From any state the driver is led, by effective steps, to a point where only
    one request is left: a request that is older than the next barrier, or the last step of a
    running barrier.  There the colour that was toggled once too often is used, by a new barrier
    or by a new request, and the protocol takes the one for older or younger than it is. */
module OrderedHarm {
  import opened Lists
  import opened OrderedQueue
  import opened OrderedInvariant
  import opened OrderedSequence
  import opened OrderedTheorems
  import opened OrderedProgress

  // ----- the colour does not matter to the driver -----

  lemma StepIgnoresColour(q: Q, s: Step, c: bool)
    requires Effective(q, s)
    ensures Enabled(q.(ordcolor := c), s) && Apply(q.(ordcolor := c), s) == Apply(q, s).(ordcolor := c)
  {
    hide NextTurn, Complete, LatePut, Dequeue;
    match s
    case SNext => NextIgnoresColour(q, c);
    case SComplete(r, err, put) => CompleteIgnoresColour(q, r, err, put, c);
    case SLatePut => LatePutIgnoresColour(q, c);
    case SDequeue(r) => DequeueIgnoresColour(q, r, c);
    case SDispatch(_, _) =>
  }

  lemma CompleteSeqIgnoresColour(q: Q, step: nat, err: int, c: bool)
    ensures CompleteSeq(q.(ordcolor := c), step, err) == CompleteSeq(q, step, err).(ordcolor := c)
    ensures DrainCheck(q.(ordcolor := c)) == DrainCheck(q).(ordcolor := c)
  {
  }

  lemma LatePutIgnoresColour(q: Q, c: bool)
    requires q.unput > 0
    ensures LatePut(q.(ordcolor := c)) == LatePut(q).(ordcolor := c)
  {
    hide DrainCheck;
    CompleteSeqIgnoresColour(q.(unput := q.unput - 1), DRAIN, 0, c);
  }

  lemma CompletedIgnoresColour(q: Q, r: Req, c: bool)
    ensures Completed(q.(ordcolor := c), r) == Completed(q, r).(ordcolor := c)
  {
    hide DrainCheck;
    var q1 := q.(inFlight := q.inFlight - B2I(Accounted(q, r)), driver := q.driver - {r},
                 started := q.started - {r});
    CompleteSeqIgnoresColour(q1, DRAIN, 0, c);
    assert q.(ordcolor := c).(inFlight := q1.inFlight, driver := q1.driver, started := q1.started)
           == q1.(ordcolor := c);
  }

  lemma CompleteIgnoresColour(q: Q, r: Req, err: int, put: bool, c: bool)
    ensures Complete(q.(ordcolor := c), r, err, put) == Complete(q, r, err, put).(ordcolor := c)
  {
    hide Dequeue, Completed, CompleteSeq;
    var q1 := if r in q.list then Dequeue(q, r) else q;
    DequeueIgnoresColour(q, r, c);
    CompletedIgnoresColour(q1, r, c);
    CompleteSeqIgnoresColour(Completed(q1, r), StepOf(r), err, c);
  }

  lemma DequeueIgnoresColour(q: Q, r: Req, c: bool)
    ensures r in q.list ==> Dequeue(q.(ordcolor := c), r) == Dequeue(q, r).(ordcolor := c)
  {
    hide Remove;
  }

  lemma StartIgnoresColour(q: Q, c: bool)
    requires |q.list| > 0 && q.list[0].Rq? && !q.mode.NoOrder?
    ensures StartOrdered(q.(ordcolor := c)) == StartOrdered(q).(ordcolor := c)
  {
    hide Proxies;
  }

  lemma DoOrderedIgnoresColour(q: Q, c: bool)
    requires |q.list| > 0
    ensures DoOrdered(q.(ordcolor := c)) == (DoOrdered(q).0.(ordcolor := c), DoOrdered(q).1)
  {
    hide StartOrdered;
    if q.list[0].Rq? && !q.mode.NoOrder? {
      StartIgnoresColour(q, c);
    }
  }

  lemma NextIgnoresColour(q: Q, c: bool)
    requires |q.list| > 0
    ensures NextTurn(q.(ordcolor := c)) == (NextTurn(q).0.(ordcolor := c), NextTurn(q).1)
  {
    hide DoOrdered, Complete;
    DoOrderedIgnoresColour(q, c);
    var q1 := DoOrdered(q).0;
    CompleteIgnoresColour(q1, BarProxy, 0, true, c);
  }

  lemma {:induction false} WorksIgnoreColour(q: Q, run: seq<Step>, q1: Q, c: bool)
    requires Works(q, run, q1)
    ensures Runs(q.(ordcolor := c), run, q1.(ordcolor := c)) && FsBarriersOnly(run)
    decreases |run|
  {
    if run != [] {
      StepIgnoresColour(q, run[0], c);
      WorksIgnoreColour(Apply(q, run[0]), run[1..], q1, c);
      EffectiveAddsNothing(q, run[0]);
      hide Effective, Apply, Enabled;
      assert forall i :: 0 < i < |run| ==> run[i] == run[1..][i - 1];
    }
  }

  lemma EffectiveAddsNothing(q: Q, s: Step)
    requires Effective(q, s)
    ensures !s.SAddSpecial? && !s.SAddFs?
  {
  }

  // ----- one request is kept back -----

  lemma WorkOn(q: Q, s: Step, run: seq<Step>, q1: Q)
    requires Effective(q, s) && (EffectiveEnabled(q, s); Works(Apply(q, s), run, q1))
    ensures Works(q, [s] + run, q1)
  {
    hide Effective, Apply;
    assert ([s] + run)[1..] == run;
  }

  /** An ordinary request that no barrier was added after. */
  predicate Newest(q: Q, x: Req) { Live(q, x) && Plain(x) && x.epoch == |q.bars| }

  /** Only `x` is left, with the driver. */
  predicate Alone(q: Q, x: Req) { q.list == [] && q.sched == {} && q.unput == 0 && q.driver == {x} }

  lemma KeepStep(q: Q, x: Req) returns (s: Step)
    requires Inv(q) && q.mode.Drain? && Newest(q, x) && !Alone(q, x)
    ensures Effective(q, s) && (s.SComplete? ==> s.r != x)
  {
    if r :| r in q.driver && r != x {
      s := SComplete(r, 0, true);
    } else if q.unput > 0 {
      s := SLatePut;
    } else if r :| r in q.sched {
      s := SDispatch(r, |q.list|);
    } else {
      if x in q.driver {
        assert q.driver == {x};
        PlainHeadPasses(q, x);
      } else {
        assert q.driver == {};
        DrainHeadAdmitted(q.mode, q);
      }
      s := HeadStep(q);
    }
  }

  /** With the newest ordinary request at the driver no sequence runs and no barrier is queued. */
  lemma PlainHeadPasses(q: Q, x: Req)
    requires Inv(q) && q.mode.Drain? && Newest(q, x) && x in q.driver
    ensures q.ord == IDLE
    ensures q.list != [] ==> !NextTurn(q).1.Nothing?
  {
    hide Coloured, Numbered, StepsRecorded, InOrder, Awaited, Complete;
    assert x in q.started;
  }

  lemma StaysNewest(q: Q, s: Step, x: Req)
    requires Inv(q) && Newest(q, x) && Effective(q, s) && (s.SComplete? ==> s.r != x)
    ensures Newest(Apply(q, s), x)
  {
    if !Live(Apply(q, s), x) {
      NothingLostWf(q, s, x);
    }
    StepBars(q, s);
    hide Apply, Effective, Inv, Live;
  }

  /** All that the driver has to do is done, except that `x` is not completed. */
  lemma {:induction false} KeepBack(q: Q, x: Req) returns (run: seq<Step>, q1: Q)
    requires Inv(q) && q.mode.Drain? && Newest(q, x)
    ensures Works(q, run, q1) && Inv(q1) && q1.mode == q.mode && q1.bars == q.bars
    ensures Newest(q1, x) && Alone(q1, x)
    decreases ToDo(q)
  {
    if Alone(q, x) {
      run, q1 := [], q;
    } else {
      var s := KeepStep(q, x);
      StaysNewest(q, s, x);
      WorkInv(q, s);
      StepPays(q, s);
      StepBars(q, s);
      EffectiveEnabled(q, s);
      hide Inv, Newest, Alone, Effective, Apply, ToDo;
      var rest;
      rest, q1 := KeepBack(Apply(q, s), x);
      WorkOn(q, s, rest, q1);
      run := [s] + rest;
    }
  }

  // ----- an older request is taken for a newer one -----

  /** An ordinary request with the colour that the next barrier will not have is alone at the driver. */
  predicate Exposed(q: Q, x: Req) {
    && q.mode.Drain? && Alone(q, x) && q.ord == IDLE && Plain(x)
    && q.started == {x} && q.inFlight == 1 && x.color != q.ordcolor && x.id < q.nextId
  }

  /** The state after a new barrier has begun its sequence, which has to wait for `x`. */
  predicate Draining1(q: Q, x: Req) {
    && Plain(x) && q.mode.Drain? && q.list == Proxies(q.mode, false)
    && q.orig.Rq? && !q.orig.empty && q.orig.color != x.color && x.id < q.orig.id
    && q.driver == {x} && q.started == {x} && q.inFlight == 1
    && q.ord == Ordseq(true, false, !q.mode.pre, false, !q.mode.post)
  }

  lemma BarrierAdded(q: Q, x: Req)
    requires Exposed(q, x)
    ensures
      var q1 := AddFs(q, true, false, false);
      && q1 == q.(list := [NewRq(q, true, true, false)], soft := q1.soft, nextId := q1.nextId,
                  ordcolor := q1.ordcolor, bars := q1.bars)
  {
  }

  lemma BarrierBegins(q: Q, x: Req)
    requires Exposed(q, x)
    ensures
      var q1 := AddFs(q, true, false, false);
      q1.list != [] && Draining1(NextTurn(q1).0, x)
  {
    hide AddFs;
    BarrierAdded(q, x);
    var q1 := AddFs(q, true, false, false);
    assert q1.list[1..] == [];
    assert q1.started - (set p | p in Proxies(q.mode, false)) == {x};
  }

  /** `x` has been given back and stands behind the sequence; nothing is outstanding. */
  predicate Draining2(q: Q, x: Req) {
    && Plain(x) && q.mode.Drain? && q.list == Proxies(q.mode, false) + [x]
    && q.orig.Rq? && !q.orig.empty && x.id < q.orig.id && q.driver == {} && q.started == {} && q.inFlight == 0
    && q.ord == Ordseq(true, false, !q.mode.pre, false, !q.mode.post)
  }

  lemma TakenForNewer(q: Q, x: Req)
    requires Draining1(q, x)
    ensures Draining2(Requeue(q, x), x)
  {
    SlotEnd(OrigColor(q), q.list, DONE);
    assert RequeueSlot(q, x) == |q.list|;
    assert InsertAt(q.list, |q.list|, x) == q.list + [x];
    hide Slot, RequeueSlot, Proxies;
  }

  lemma SlotEnd(color: bool, l: seq<Req>, s: nat)
    requires forall i :: 0 <= i < |l| ==> ReqSeq(color, l[i]) < s
    ensures Slot(color, l, s) == |l|
  {
  }

  /** A request from outside has been handed out. */
  predicate Draining3(q: Q, x: Req, t: Req) {
    && Plain(x) && q.mode.Drain? && q.list == [t] + (Proxies(q.mode, false) + [x])
    && q.orig.Rq? && !q.orig.empty && x.id < q.orig.id && t.Rq? && !t.fs && q.driver == {} && q.started == {t}
    && q.inFlight == 0
    && q.ord == Ordseq(true, false, !q.mode.pre, false, !q.mode.post)
  }

  lemma OutsiderGiven(q: Q, x: Req)
    requires Draining2(q, x)
    ensures
      var q1 := AddSpecial(q, false, true);
      q1.list != [] && Draining3(NextTurn(q1).0, x, NewRq(q, false, false, false))
  {
    var t, q1 := NewRq(q, false, false, false), AddSpecial(q, false, true);
    assert q1.list == [t] + q.list;
    assert DoOrdered(q1) == (q1, Pass(t));
    hide DoOrdered, Proxies;
    assert q1.started + {t} == {t};
  }

  /** It ends with nothing in flight, before a step of the sequence: the drain is over. */
  predicate Due(q: Q, x: Req) {
    && Plain(x) && q.mode.Drain? && q.list == Proxies(q.mode, false) + [x]
    && q.orig.Rq? && !q.orig.empty && x.id < q.orig.id && q.ord == Ordseq(true, true, !q.mode.pre, false, !q.mode.post)
  }

  lemma DrainFooled(q: Q, x: Req, t: Req)
    requires Draining3(q, x, t)
    ensures Due(Complete(q, t, 0, true), x)
  {
    hide Index;
    var l := Proxies(q.mode, false) + [x];
    assert Index(q.list, t) == 0;
    assert Remove(q.list, t) == l;
    SequenceHead(q.mode, x);
    var q1 := Dequeue(q, t);
    assert q1.list == l && q1.inFlight == 0;
    assert Complete(q, t, 0, true) == Completed(q1, t);
    hide Proxies, Complete, Dequeue;
  }

  lemma SequenceHead(mode: Mode, x: Req)
    requires !mode.NoOrder?
    ensures |Proxies(mode, false) + [x]| > 0 && !(Proxies(mode, false) + [x])[0].Rq?
  {
  }

  /** Handing out the head of the list is unsafe. */
  ghost predicate Hurts(q: Q) { |q.list| > 0 && NextTurn(q).1.Give? && !Safe(q) }

  /** The first step of the sequence is handed out while an older request is queued. */
  lemma StepTooEarly(q: Q, x: Req)
    requires Due(q, x)
    ensures Hurts(q)
  {
    var p := Proxies(q.mode, false);
    assert q.list[0] == p[0] && q.list[|p|] == x;
    assert NextTurn(q).1 == Give(p[0]);
    assert x in NextTurn(q).0.list && Live(NextTurn(q).0, x);
  }

  /** Some state behind `q`, with no other such request added, in which handing out the head is unsafe. */
  ghost predicate Harmed(q: Q) {
    exists run, q1 :: Runs(q, run, q1) && FsBarriersOnly(run) && Hurts(q1)
  }

  lemma HarmedNow(q: Q)
    requires Hurts(q)
    ensures Harmed(q)
  {
    assert Runs(q, [], q) && FsBarriersOnly([]);
  }

  lemma HarmedStep(q: Q, s: Step)
    requires Enabled(q, s) && (s.SAddSpecial? ==> !s.hard) && Harmed(Apply(q, s))
    ensures Harmed(q)
  {
    hide Enabled, Apply, Hurts;
    var run, q1 :| Runs(Apply(q, s), run, q1) && FsBarriersOnly(run) && Hurts(q1);
    assert ([s] + run)[1..] == run;
    assert Runs(q, [s] + run, q1) && FsBarriersOnly([s] + run);
  }

  lemma {:induction false} HarmedBefore(q: Q, run: seq<Step>, q1: Q)
    requires Runs(q, run, q1) && FsBarriersOnly(run) && Harmed(q1)
    ensures Harmed(q)
    decreases |run|
  {
    hide Harmed, Apply, Enabled;
    if run != [] {
      assert forall i :: 0 <= i < |run[1..]| ==> run[1..][i] == run[i + 1];
      HarmedBefore(Apply(q, run[0]), run[1..], q1);
      HarmedStep(q, run[0]);
    }
  }

  lemma HarmedNext(q: Q)
    requires q.list != [] && Harmed(NextTurn(q).0)
    ensures Harmed(q)
  {
    hide Harmed, NextTurn;
    HarmedStep(q, SNext);
  }

  lemma HarmedAdd(q: Q, hard: bool)
    requires q.sched == {} && Harmed(AddFs(q, hard, false, false))
    ensures Harmed(q)
  {
    hide Harmed, AddFs;
    HarmedStep(q, SAddFs(hard, false, false));
  }

  lemma HarmedSpecial(q: Q)
    requires Harmed(AddSpecial(q, false, true))
    ensures Harmed(q)
  {
    hide Harmed, AddSpecial;
    HarmedStep(q, SAddSpecial(false, true));
  }

  lemma HarmedRequeue(q: Q, r: Req)
    requires r in q.driver && Harmed(Requeue(q, r))
    ensures Harmed(q)
  {
    hide Harmed, Requeue;
    HarmedStep(q, SRequeue(r));
  }

  lemma HarmedComplete(q: Q, r: Req)
    requires r in q.started && Harmed(Complete(q, r, 0, true))
    ensures Harmed(q)
  {
    hide Harmed, Complete;
    HarmedStep(q, SComplete(r, 0, true));
  }

  lemma DueHarms(q: Q, x: Req)
    requires Draining2(q, x)
    ensures Harmed(q)
  {
    hide Harmed, Hurts, AddSpecial, NextTurn, Complete, Due, Draining2, NewRq, Proxies;
    OutsiderGiven(q, x);
    var t := NewRq(q, false, false, false);
    var q1 := AddSpecial(q, false, true);
    var q2 := NextTurn(q1).0;
    DrainFooled(q2, x, t);
    StepTooEarly(Complete(q2, t, 0, true), x);
    HarmedNow(Complete(q2, t, 0, true));
    HarmedComplete(q2, t);
    HarmedNext(q1);
    HarmedSpecial(q);
  }

  lemma ExposedHarms(q: Q, x: Req)
    requires Exposed(q, x)
    ensures Harmed(q)
  {
    hide Harmed, AddFs, NextTurn, Requeue, Draining2, Proxies;
    BarrierBegins(q, x);
    var q1 := AddFs(q, true, false, false);
    var q2 := NextTurn(q1).0;
    TakenForNewer(q2, x);
    DueHarms(Requeue(q2, x), x);
    HarmedRequeue(q2, x);
    HarmedNext(q1);
    HarmedAdd(q, true);
  }

  /** After one toggle too many, an ordinary request that no barrier was added after does harm. */
  lemma NewestHarms(p: Q, x: Req)
    requires Inv(p) && p.mode.Drain? && Newest(p, x)
    ensures Harmed(p.(ordcolor := !p.ordcolor))
  {
    var run, p1 := KeepBack(p, x);
    WorksIgnoreColour(p, run, p1, !p.ordcolor);
    var q1 := p1.(ordcolor := !p.ordcolor);
    PlainHeadPasses(p1, x);
    AloneExposed(p1, x);
    ParityKept(p, p1);
    hide Inv, Newest, Alone, Works, Harmed, Runs, FsBarriersOnly;
    ExposedHarms(q1, x);
    HarmedBefore(p.(ordcolor := !p.ordcolor), run, q1);
  }

  lemma ParityKept(p: Q, p1: Q)
    requires Inv(p) && Inv(p1) && p1.bars == p.bars
    ensures p1.ordcolor == p.ordcolor
  {
  }

  lemma AloneExposed(p: Q, x: Req)
    requires Inv(p) && p.mode.Drain? && Newest(p, x) && Alone(p, x) && p.ord == IDLE
    ensures Exposed(p.(ordcolor := !p.ordcolor), x)
  {
    hide BarriersListed, StepsRecorded, EndsRecorded, Draining, InOrder, Awaited;
    assert p.started == {x};
    assert FsOf(p.driver) == {x};
  }

  // ----- a newer request is taken for an older one -----

  predicate EmptyBarrier(b: Req) { b.Rq? && b.empty }

  /** The newest barrier has data and is not ended, and no ordinary request came after it. */
  ghost predicate Unended(q: Q) {
    && |q.hist.ended| < |q.bars| && !EmptyBarrier(q.bars[|q.bars| - 1])
    && forall x :: Live(q, x) && Plain(x) ==> x.epoch < |q.bars|
  }

  /** The completion of `r` would end the last sequence. */
  predicate Final(q: Q, r: Req) {
    && !r.Rq? && q.ord.started && q.hist.begun == |q.bars|
    && CurSeq(SetBit(q.ord, StepOf(r))) == DONE
  }

  /** Only the last step of the last sequence is left, with the driver. */
  predicate AtLast(q: Q, r: Req) {
    q.list == [] && q.sched == {} && q.unput == 0 && q.driver == {r} && Final(q, r)
  }

  lemma LastStep(q: Q) returns (s: Step)
    requires Inv(q) && q.mode.Drain? && Unended(q) && forall r :: !AtLast(q, r)
    ensures Effective(q, s) && (s.SComplete? ==> !Final(q, s.r))
  {
    if r :| r in q.driver && !Final(q, r) {
      s := SComplete(r, 0, true);
    } else if q.unput > 0 {
      s := SLatePut;
    } else {
      NothingSorted(q);
      if q.driver == {} {
        SomethingQueued(q);
        DrainHeadAdmitted(q.mode, q);
      } else {
        var r :| r in q.driver;
        OnlyFinal(q, r);
        assert !AtLast(q, r);
        FinalHeadPasses(q, r);
      }
      s := HeadStep(q);
    }
  }

  /** What is in the scheduler came after every barrier. */
  lemma NothingSorted(q: Q)
    requires Placed(q) && Unended(q)
    ensures q.sched == {}
  {
    assert forall r :: r in q.sched ==> Live(q, r);
  }

  lemma SomethingQueued(q: Q)
    requires Inv(q) && q.mode.Drain? && Unended(q) && q.driver == {} && q.unput == 0 && q.sched == {}
    ensures q.list != []
  {
    if q.list == [] {
      EmptyIsDone(q);
    }
  }

  /** There is only one such step. */
  lemma OnlyFinal(q: Q, r: Req)
    requires Inv(q) && r in q.driver && forall x :: x in q.driver ==> Final(q, x)
    ensures q.driver == {r}
  {
    hide Coloured, Numbered, BarriersListed, StepsRecorded, EndsRecorded, Draining, InOrder, Awaited, Placed;
    forall x | x in q.driver ensures x == r {
      assert Held(q, x) && Held(q, r);
    }
  }

  lemma FinalHeadPasses(q: Q, r: Req)
    requires Inv(q) && q.mode.Drain? && Unended(q) && q.driver == {r} && Final(q, r)
    ensures q.list != [] ==> !NextTurn(q).1.Nothing?
  {
    if q.list != [] {
      var h := q.list[0];
      assert Live(q, h) && Held(q, r);
      FinalHeadSpecial(q, r);
      assert DoOrdered(q) == (q, Pass(h));
      hide DoOrdered;
    }
  }

  lemma FinalHeadSpecial(q: Q, r: Req)
    requires Inv(q) && q.mode.Drain? && Unended(q) && r in q.driver && Final(q, r) && q.list != []
    ensures Special(q.list[0])
  {
    hide Coloured, Numbered, StepsRecorded, EndsRecorded, InOrder, Awaited;
    var h := q.list[0];
    assert Live(q, h) && Held(q, h) && Held(q, r);
    assert CurSeq(q.ord) == StepOf(r) by {
      assert r in q.started;
    }
  }

  /** A step that is not the last one leaves the last sequence unended. */
  lemma StaysUnended(q: Q, s: Step)
    requires Inv(q) && q.mode.Drain? && Unended(q) && Effective(q, s) && (s.SComplete? ==> !Final(q, s.r))
    requires Inv(Apply(q, s))
    ensures Unended(Apply(q, s))
  {
    hide Inv, Numbered, EndsRecorded, NextTurn, Draining, Odd, Rank, StepsRecorded, InOrder, Enabled, Apply,
      Coloured, ProxiesHeld, Placed;
    var q1 := Apply(q, s);
    StepBars(q, s);
    LivesOn(q, s);
    EndedCount(q);
    EndedCount(q1);
    StillRunning(q, s);
    hide Inv, Apply, Effective;
  }

  lemma EndedCount(q: Q)
    requires Inv(q)
    ensures |q.hist.ended| + Ending(q) == q.hist.begun <= |q.bars|
  {
  }

  lemma LivesOn(q: Q, s: Step)
    requires Inv(q) && Effective(q, s)
    ensures forall x :: Live(Apply(q, s), x) && x.Rq? ==> Live(q, x)
  {
    match s
    case SDispatch(r, pos) => DispatchLives(q, r, pos);
    case SNext => NextLives(q);
    case SDequeue(r) => RemoveReq(q.list, r);
    case SComplete(r, err, put) =>
      GonePlaced(q, r);
      CompleteUnfolds(q, r, err, put);
    case SLatePut =>
  }

  lemma DispatchLives(q: Q, r: Req, pos: nat)
    requires Placed(q) && r in q.sched && pos <= |q.list|
    ensures forall x :: Live(Dispatch(q, r, pos), x) <==> Live(q, x)
  {
    InsertReq(q.list, pos, r);
  }

  lemma NextLives(q: Q)
    requires Placed(q) && |q.list| > 0
    ensures forall x :: Live(NextTurn(q).0, x) && x.Rq? ==> Live(q, x)
  {
    DoOrderedLives(q);
    var q1 := DoOrdered(q).0;
    assert BarProxy in q1.list ==> forall x :: x in Remove(q1.list, BarProxy) ==> x in q1.list;
    hide DoOrdered, CompleteSeq, DrainCheck, Remove;
  }

  lemma DoOrderedLives(q: Q)
    requires |q.list| > 0
    ensures forall x :: Live(DoOrdered(q).0, x) && x.Rq? ==> Live(q, x)
  {
    hide StackSequence, StartOrdered;
    assert forall x :: x in q.list[1..] ==> x in q.list;
    if q.list[0].Rq? && !q.mode.NoOrder? {
      StartList(q);
    }
    assert q.list[0].Rq? && !q.mode.NoOrder? ==>
      StartOrdered(q).sched == q.sched && StartOrdered(q).driver == q.driver by {
      StartKeeps(q);
    }
  }

  lemma StartKeeps(q: Q)
    ensures |q.list| > 0 && q.list[0].Rq? && !q.mode.NoOrder? ==>
      StartOrdered(q).sched == q.sched && StartOrdered(q).driver == q.driver
  {
  }

  lemma StillRunning(q: Q, s: Step)
    requires Inv(q) && q.mode.Drain? && Unended(q) && Effective(q, s) && (s.SComplete? ==> !Final(q, s.r))
    requires Inv(Apply(q, s))
    ensures Apply(q, s).hist.begun < |q.bars| || Apply(q, s).ord.started
  {
    hide Inv, NextTurn, Complete, DrainCheck, Remove, InsertAt, DispatchSlot, RequeueSlot, Final;
    EndedCount(q);
    RunningOrNot(q);
    match s
    case SNext => NextRunning(q);
    case SComplete(r, err, put) => CompleteRunning(q, r, err, put);
    case SLatePut =>
      if q.ord.started && !q.ord.drain { BarWaits(q); }
      DrainRuns(q.(unput := q.unput - 1));
    case _ =>
  }

  /** A barrier that is not ended waits or runs. */
  lemma RunningOrNot(q: Q)
    requires |q.hist.ended| + Ending(q) == q.hist.begun && Unended(q)
    ensures q.hist.begun < |q.bars| || q.ord.started
  {
  }

  lemma BarWaits(q: Q)
    requires Inv(q) && q.mode.Drain? && q.ord.started && !q.ord.drain
    ensures !q.ord.bar
  {
    hide Placed, Coloured, Numbered, BarriersListed, EndsRecorded, Draining, Awaited;
  }

  /** The end of the drain is not the end of the sequence. */
  lemma DrainRuns(q: Q)
    requires q.ord.started && !q.ord.drain ==> !q.ord.bar
    ensures DrainCheck(q).ord.started == q.ord.started
  {
  }

  lemma CompleteRunning(q: Q, r: Req, err: int, put: bool)
    requires Inv(q) && q.mode.Drain? && Unended(q) && r in q.started && !Final(q, r)
    ensures Complete(q, r, err, put).hist.begun < |q.bars| || Complete(q, r, err, put).ord.started
  {
    EndedCount(q);
    if q.ord.started && !q.ord.drain {
      BarWaits(q);
    }
    StartedHeld(q, r);
    assert !r.Rq? ==> q.ord.started && CurSeq(q.ord) == StepOf(r);
    CompleteUnfolds(q, r, err, put);
    DrainRuns(Gone(q, r));
    hide Inv, Complete, Remove, Unended, Wf;
    if !r.Rq? {
      StepEnds(Gone(q, r), r, err);
      assert |q.hist.ended| < |q.bars| by { UnendedCount(q); }
    } else {
      UnendedCount(q);
      hide CompleteSeq, DrainCheck;
    }
  }

  lemma UnendedCount(q: Q)
    requires Unended(q)
    ensures |q.hist.ended| < |q.bars|
  {
  }

  lemma StepEnds(q: Q, r: Req, err: int)
    requires !r.Rq? && q.ord.started && CurSeq(q.ord) == StepOf(r)
    ensures
      var q1 := CompleteSeq(DrainCheck(q), StepOf(r), err);
      q1.hist.begun == q.hist.begun && (CurSeq(SetBit(q.ord, StepOf(r))) != DONE ==> q1.ord.started)
  {
    assert DrainCheck(q) == q;
  }

  lemma NextRunning(q: Q)
    requires Inv(q) && q.mode.Drain? && Unended(q) && |q.list| > 0 && Inv(NextTurn(q).0)
    ensures NextTurn(q).0.hist.begun < |q.bars| || NextTurn(q).0.ord.started
  {
    hide StackSequence, Coloured, StepsRecorded, TakeBarrier, Numbered, NextTurn, InOrder, Odd, ProxiesHeld,
      Live, Rank, Draining, DoOrdered, Placed, EndsRecorded;
    EndedCount(q);
    NextCases(q);
    if q.ord.started || !Barrier(q.list[0]) {
      if DoOrdered(q) == (q, Pass(q.list[0])) {
        PassRunning(q, q);
      }
    } else {
      HeadIsNext(q);
      StartRunning(q);
      StartHead(q);
      StartedTurn(q);
      var q1 := StartOrdered(q);
      hide StartOrdered, DoOrdered, Inv;
      if q1.ord.drain {
        PassRunning(q, q1);
      }
    }
  }

  lemma StartRunning(q: Q)
    requires |q.list| > 0 && q.list[0].Rq? && !q.mode.NoOrder?
    ensures
      var q1 := StartOrdered(q);
      q1.ord.started && q1.hist.begun == q.hist.begun + 1 && q1.orig == q.list[0]
  {
  }

  /** The proxy of the newest barrier, which has data, is never ended without the driver. */
  lemma PassRunning(q: Q, q1: Q)
    requires |q.list| > 0 && |q1.list| > 0 && DoOrdered(q) == (q1, Pass(q1.list[0]))
    requires |q.bars| > 0 && !EmptyBarrier(q.bars[|q.bars| - 1])
    requires q1.hist.begun <= |q.bars|
    requires q1.ord.started && q1.hist.begun == |q.bars| ==> q1.orig == q.bars[|q.bars| - 1]
    requires q1.hist.begun < |q.bars| || q1.ord.started
    ensures NextTurn(q).0.hist.begun < |q.bars| || NextTurn(q).0.ord.started
  {
    hide DoOrdered, CompleteSeq, DrainCheck;
  }

  // ----- the last sequence is kept from ending -----

  /** All that the driver has to do is done, except the last step of the last sequence. */
  lemma {:induction false} KeepLast(q: Q) returns (run: seq<Step>, q1: Q, r: Req)
    requires Inv(q) && q.mode.Drain? && Unended(q)
    ensures Works(q, run, q1) && Inv(q1) && q1.mode == q.mode && q1.bars == q.bars
    ensures Unended(q1) && AtLast(q1, r)
    decreases ToDo(q)
  {
    hide Inv, Unended, AtLast, Effective, Enabled, Apply, ToDo, Final;
    if x :| AtLast(q, x) {
      run, q1, r := [], q, x;
    } else {
      var s := LastStep(q);
      EffectiveEnabled(q, s);
      WorkInv(q, s);
      StaysUnended(q, s);
      StepPays(q, s);
      StepBars(q, s);
      var rest;
      rest, q1, r := KeepLast(Apply(q, s));
      WorkOn(q, s, rest, q1);
      run := [s] + rest;
    }
  }

  /** A new request gets the colour of the barrier and passes for older than it. */
  lemma TakenForOlder(q: Q, r: Req)
    requires q.mode.Drain? && AtLast(q, r) && OfFs(q.orig) && q.orig.color == q.ordcolor && q.orig.id < q.nextId
    ensures Hurts(AddFs(q, false, false, false))
  {
    var q1, y := AddFs(q, false, false, false), NewRq(q, true, false, false);
    assert q1.list == [y];
    assert ReqSeq(OrigColor(q1), y) == DRAIN;
    assert DoOrdered(q1) == (q1, Pass(y));
    hide DoOrdered;
    assert NextTurn(q1) == (q1.(started := q1.started + {y}), Give(y));
  }

  lemma LastColour(p: Q, r: Req)
    requires Inv(p) && AtLast(p, r)
    ensures OfFs(p.orig) && p.orig.color == !p.ordcolor && p.orig.id < p.nextId
  {
    hide Placed, ProxiesHeld, StepsRecorded, EndsRecorded, Draining, InOrder, Awaited;
  }

  /** After one toggle too many, a barrier with data that is not ended does harm, if no ordinary request
      came after it. */
  lemma UnendedHarms(p: Q)
    requires Inv(p) && p.mode.Drain? && Unended(p)
    ensures Harmed(p.(ordcolor := !p.ordcolor))
  {
    var run, p1, r := KeepLast(p);
    WorksIgnoreColour(p, run, p1, !p.ordcolor);
    var q1 := p1.(ordcolor := !p.ordcolor);
    ParityKept(p, p1);
    LastColour(p1, r);
    assert AtLast(q1, r);
    assert q1.sched == {};
    hide Inv, Unended, AtLast, Works, Harmed, Runs, FsBarriersOnly, Hurts;
    TakenForOlder(q1, r);
    HarmedNow(AddFs(q1, false, false, false));
    HarmedAdd(q1, false);
    HarmedBefore(p.(ordcolor := !p.ordcolor), run, q1);
  }
}

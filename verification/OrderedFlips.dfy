/** A hard-barrier request that is not a file-system request, added at the right moment, does no harm: the
    queue then behaves like one to which no such request was ever added, with other colours.  The
    requests whose colours are compared were all added before, or all after, the last toggle too
    many; or a barrier without data, which ends before anything behind it can be looked at, stands
    between them. */
module OrderedFlips {
  import opened Lists
  import opened OrderedQueue
  import opened OrderedInvariant
  import opened OrderedSteps
  import opened OrderedSequence
  import opened OrderedTheorems
  import opened OrderedProgress
  import opened OrderedHarm
  import opened OrderedRecolour

  /** How the barrier with number `e`, or the next one, is flipped. */
  predicate Tone(f: nat -> bool, c: bool, p: Q, e: nat) {
    if e < |p.bars| && p.bars[e].Rq? then f(p.bars[e].id) else c
  }

  /** New requests are flipped like `c`, an ordinary request like the barrier behind it, and a barrier that
      has data and is not ended like the next. */
  ghost predicate Toned(f: nat -> bool, c: bool, p: Q) {
    && (forall i: nat :: i >= p.nextId ==> f(i) == c)
    && (forall r :: Live(p, r) && Plain(r) ==> f(r.id) == Tone(f, c, p, r.epoch))
    && (forall e :: |p.hist.ended| <= e < |p.bars| && !EmptyBarrier(p.bars[e]) ==>
          Tone(f, c, p, e) == Tone(f, c, p, e + 1))
  }

  /** The proxy of a barrier without data is never given to the driver, and it has no post-flush. */
  predicate Quiet(p: Q) {
    p.ord.started && EmptyBarrier(p.orig) ==> BarProxy !in p.started && p.ord.post
  }

  /** Numbers of requests that were added. */
  predicate Numbered1(p: Q, r: Req) { r.Rq? ==> r.id < p.nextId }

  ghost predicate Known(p: Q) {
    && (forall r :: r in p.soft ==> Numbered1(p, r))
    && Numbered1(p, p.orig)
    && forall i :: 0 <= i < |p.hist.ended| ==> Numbered1(p, p.hist.ended[i].0)
  }

  // ----- what is compared matches -----

  /** Who is not flipped like the running barrier is younger than it. */
  lemma MismatchYounger(f: nat -> bool, c: bool, p: Q, y: Req)
    requires Inv(p) && p.mode.Drain? && Toned(f, c, p) && p.ord.started
    requires Live(p, y) && !Matches(f, p, y)
    ensures OfFs(y) && y.epoch >= p.hist.begun && (Barrier(y) ==> y in p.list)
  {
    hide Coloured, Numbered, StepsRecorded, EndsRecorded, InOrder, Awaited, ProxiesHeld;
  }

  lemma ProxyQueued(p: Q)
    requires Inv(p) && p.mode.Drain? && Quiet(p) && p.ord.started && EmptyBarrier(p.orig)
    ensures BarProxy in p.list
  {
    assert !p.ord.bar by {
      hide Placed, Coloured, Numbered, EndsRecorded, Draining, Awaited;
    }
    assert Held(p, BarProxy);
    hide Coloured, Numbered, Recorded, InOrder, Awaited;
  }

  lemma Before(n: nat, s: seq<Req>, i: nat, j: nat)
    requires Sorted(n, s) && i < |s| && j < |s|
    requires Ranked(s[i]) && Ranked(s[j]) && Rank(n, s[i]) < Rank(n, s[j])
    ensures i < j
  {
  }

  lemma BehindProxy(f: nat -> bool, c: bool, p: Q, i: nat)
    requires Inv(p) && p.mode.Drain? && Toned(f, c, p) && Quiet(p) && p.ord.started && EmptyBarrier(p.orig)
    requires i < |p.list| && !Matches(f, p, p.list[i])
    ensures exists j :: 0 <= j < i && p.list[j] == BarProxy
  {
    ProxyQueued(p);
    var j :| 0 <= j < |p.list| && p.list[j] == BarProxy;
    assert Live(p, p.list[i]);
    MismatchYounger(f, c, p, p.list[i]);
    assert Sorted(p.hist.begun, p.list);
    hide Inv, Toned, Matches, Wf, Sorted;
    Before(p.hist.begun, p.list, j, i);
  }

  lemma BehindBarrier(f: nat -> bool, c: bool, p: Q, i: nat)
    requires Inv(p) && p.mode.Drain? && Toned(f, c, p) && p.ord.started && !EmptyBarrier(p.orig)
    requires i < |p.list| && !Matches(f, p, p.list[i])
    ensures exists j :: 0 <= j < i && ReqSeq(OrigColor(p), p.list[j]) == DONE
  {
    assert Live(p, p.list[i]);
    MismatchYounger(f, c, p, p.list[i]);
    NextTone(f, c, p, p.list[i]);
    NextBarrierFirst(p, i);
  }

  /** Behind a barrier with data, what belongs to the next barrier is flipped like it. */
  lemma NextTone(f: nat -> bool, c: bool, p: Q, y: Req)
    requires Inv(p) && Toned(f, c, p) && p.ord.started && !EmptyBarrier(p.orig)
    requires Live(p, y) && OfFs(y) && y.epoch >= p.hist.begun && (Barrier(y) ==> y in p.list) && !Matches(f, p, y)
    ensures y.epoch > p.hist.begun
  {
    assert f(y.id) == Tone(f, c, p, y.epoch);
    hide Placed, ProxiesHeld, Numbered, StepsRecorded, Draining, InOrder, Awaited;
    var b := p.hist.begun - 1;
    assert p.orig == p.bars[b] && |p.hist.ended| == b;
    assert Tone(f, c, p, b) == Tone(f, c, p, b + 1);
    hide Toned;
  }

  lemma HeadAlike(f: nat -> bool, c: bool, p: Q)
    requires Inv(p) && p.mode.Drain? && Toned(f, c, p) && Quiet(p)
    ensures HeadMatches(f, p)
  {
    hide Inv, Toned, Quiet, Matches;
    if p.ord.started && |p.list| > 0 {
      OrigIsBarrier(p);
      if !Matches(f, p, p.list[0]) {
        if EmptyBarrier(p.orig) {
          BehindProxy(f, c, p, 0);
        } else {
          BehindBarrier(f, c, p, 0);
        }
      }
    }
  }

  lemma OrigIsBarrier(p: Q)
    requires Inv(p) && p.ord.started
    ensures Barrier(p.orig) && p.hist.begun > 0 && p.orig == p.bars[p.hist.begun - 1]
  {
  }

  /** What the driver gives back has its place before whatever is flipped otherwise. */
  lemma RequeueAlike(f: nat -> bool, c: bool, p: Q, r: Req)
    requires Inv(p) && p.mode.Drain? && Toned(f, c, p) && Quiet(p) && p.ord.started && r in p.driver
    ensures p.orig.Rq? && Matches(f, p, r)
    ensures forall i :: 0 <= i <= RequeueSlot(p, r) && i < |p.list| ==> Matches(f, p, p.list[i])
  {
    hide Inv, Toned, Quiet, Matches, Slot;
    OrigIsBarrier(p);
    DriverClass(f, c, p, r);
    var s := ReqSeq(OrigColor(p), r);
    forall i | 0 <= i <= RequeueSlot(p, r) && i < |p.list| ensures Matches(f, p, p.list[i]) {
      if !Matches(f, p, p.list[i]) {
        if EmptyBarrier(p.orig) {
          BehindProxy(f, c, p, i);
        } else {
          BehindBarrier(f, c, p, i);
        }
      }
    }
  }

  lemma DriverClass(f: nat -> bool, c: bool, p: Q, r: Req)
    requires Inv(p) && p.mode.Drain? && Toned(f, c, p) && Quiet(p) && p.ord.started && r in p.driver
    ensures Matches(f, p, r)
    ensures ReqSeq(OrigColor(p), r) != DONE
    ensures EmptyBarrier(p.orig) ==> ReqSeq(OrigColor(p), r) <= BAR
  {
    hide Numbered, StepsRecorded, EndsRecorded, InOrder, Awaited;
    assert r in p.started && Live(p, r) && Held(p, r);
  }

  // ----- steps -----

  lemma EnabledSeen(f: nat -> bool, c: bool, p: Q, s: Step)
    ensures Enabled(Seen(f, c, p), SeenStep(f, s)) <==> Enabled(p, s)
  {
    match s
    case SDispatch(r, pos) =>
      AllHas(f, p.sched);
      SlotSeen(f, c, p, pos);
      hide Recol, All, DispatchSlot;
    case SDequeue(r) => AllHas(f, p.started); EachHas(f, p.list); hide Recol, All;
    case SRequeue(r) => AllHas(f, p.driver); hide Recol, All;
    case SComplete(r, _, _) => AllHas(f, p.started); hide Recol, All;
    case SPartialBar(_) => AllHas(f, p.started); SameKind(f, BarProxy); hide Recol, All;
    case _ => AllHas(f, p.sched); hide Recol, All;
  }

  lemma SlotSeen(f: nat -> bool, c: bool, p: Q, pos: nat)
    ensures DispatchSlot(Seen(f, c, p), pos) == DispatchSlot(p, pos)
  {
    hide Recol, All, Stops;
    if pos <= |p.list| {
      DispatchSeen(f, c, p, BarProxy, pos);
    }
  }

  /** Every step commutes with the recolouring. */
  lemma NextFlip(f: nat -> bool, c: bool, p: Q)
    requires Toned(f, c, p)
    ensures f(p.nextId) == c
  {
  }

  lemma StepSeen(f: nat -> bool, c: bool, p: Q, s: Step)
    requires Inv(p) && p.mode.Drain? && Toned(f, c, p) && Quiet(p) && Enabled(p, s) && !(s.SAddSpecial? && s.hard)
    ensures Enabled(Seen(f, c, p), SeenStep(f, s))
    ensures Apply(Seen(f, c, p), SeenStep(f, s)) == Seen(f, c, Apply(p, s))
  {
    hide Inv, Toned, Quiet, HeadMatches, Seen, Recol, AddFs, AddSpecial, Dispatch, NextTurn, Dequeue, Requeue,
      RequeueSlot, Matches, Complete, PartialBar, LatePut, CurSeq, Stops;
    EnabledSeen(f, c, p, s);
    NextFlip(f, c, p);
    HeadAlike(f, c, p);
    match s
    case SAddFs(hard, empty, sorted) => AddFsSeen(f, c, p, hard, empty, sorted);
    case SAddSpecial(_, front) => AddSpecialSeen(f, c, p, front);
    case SDispatch(r, pos) => DispatchSeen(f, c, p, r, pos);
    case SNext => NextAlike(f, c, p);
    case SDequeue(r) => DequeueSeen(f, c, p, r);
    case SRequeue(r) => if p.ord.started { RequeueAlike(f, c, p, r); } RequeueSeen(f, c, p, r);
    case SComplete(r, err, put) => CompleteAlike(f, c, p, r); CompleteSeen(f, c, p, r, err, put);
    case SPartialBar(err) => PartialBarSeen(f, c, p, err);
    case SLatePut => LatePutSeen(f, c, p);
  }

  lemma NextAlike(f: nat -> bool, c: bool, p: Q)
    requires Inv(p) && p.mode.Drain? && Toned(f, c, p) && Quiet(p) && |p.list| > 0
    ensures NextTurn(Seen(f, c, p)) == (Seen(f, c, NextTurn(p).0), SeenOutcome(f, NextTurn(p).1))
  {
    hide Inv, Toned, Quiet, Seen, NextTurn, DoOrdered, HeadMatches;
    HeadAlike(f, c, p);
    if DoOrdered(p).1 == Pass(BarProxy) {
      ProxyPasses(p);
    }
    NextSeen(f, c, p);
  }

  /** The barrier's proxy is let through only when its turn has come. */
  lemma ProxyPasses(p: Q)
    requires Inv(p) && p.mode.Drain? && |p.list| > 0 && DoOrdered(p).1 == Pass(BarProxy)
    ensures CurSeq(DoOrdered(p).0.ord) != DRAIN
  {
    hide Placed, Coloured, Numbered, Recorded, Draining, InOrder, Awaited, TakeBarrier;
    assert p.list[0] == BarProxy ==> Held(p, BarProxy);
  }

  /** A request that ends while it is still in the list: the new head matches as well. */
  lemma CompleteAlike(f: nat -> bool, c: bool, p: Q, r: Req)
    requires Inv(p) && p.mode.Drain? && Toned(f, c, p) && Quiet(p) && r in p.started
    ensures var q1 := if r in p.list then Dequeue(p, r) else p; CurSeq(p.ord) == DRAIN ==> HeadMatches(f, q1)
  {
    hide Inv, Toned, Quiet, HeadMatches, Remove, CurSeq;
    if r in p.list {
      DequeueInv(p, r);
      DequeueToned(f, c, p, r);
      HeadAlike(f, c, Dequeue(p, r));
    } else {
      HeadAlike(f, c, p);
    }
  }

  lemma DequeueToned(f: nat -> bool, c: bool, p: Q, r: Req)
    requires Inv(p) && p.mode.Drain? && Toned(f, c, p) && Quiet(p) && r in p.list && r in p.started
    ensures Toned(f, c, Dequeue(p, r)) && Quiet(Dequeue(p, r))
  {
    hide Inv, Toned, Remove;
    InvNoDup(p);
    RemoveReq(p.list, r);
    FewerToned(f, c, p, Dequeue(p, r));
  }

  lemma InvNoDup(p: Q)
    requires Inv(p)
    ensures NoDup(p.list)
  {
  }

  /** Nothing was added, and whatever was ended stays ended. */
  lemma FewerToned(f: nat -> bool, c: bool, p: Q, q: Q)
    requires Toned(f, c, p) && q.bars == p.bars && q.nextId == p.nextId && |q.hist.ended| >= |p.hist.ended|
    requires forall x :: Live(q, x) && Plain(x) ==> Live(p, x)
    ensures Toned(f, c, q)
  {
    hide Live, Tone;
    SameTones(f, c, p, q);
    forall e | |q.hist.ended| <= e < |q.bars| && !EmptyBarrier(q.bars[e])
      ensures Tone(f, c, q, e) == Tone(f, c, q, e + 1)
    {
      assert Tone(f, c, p, e) == Tone(f, c, p, e + 1);
    }
  }

  lemma SameTones(f: nat -> bool, c: bool, p: Q, q: Q)
    requires q.bars == p.bars
    ensures forall e: nat :: Tone(f, c, q, e) == Tone(f, c, p, e)
  {
  }

  /** The queue keeps its tones while a request is added. */
  lemma AddToned(f: nat -> bool, c: bool, p: Q, hard: bool, empty: bool, sorted: bool)
    requires Inv(p) && Toned(f, c, p)
    ensures Toned(f, c, AddFs(p, hard, empty, sorted))
  {
    hide EndsRecorded, Placed, AddFs, ProxiesHeld, StepsRecorded, Coloured, BarriersListed, FirstError,
      EmptyBarrier, IsStep, Numbered;
    var r, q := NewRq(p, true, hard, empty), AddFs(p, hard, empty, sorted);
    AddFsLive(p, hard, empty, sorted);
    AddedBars(p, hard, empty, sorted);
    AddedTones(f, c, p, r, q);
    EpochsBounded(p);
    hide Live, Tone, Inv, AddFs;
    forall e | |q.hist.ended| <= e < |q.bars| && !EmptyBarrier(q.bars[e])
      ensures Tone(f, c, q, e) == Tone(f, c, q, e + 1)
    {
      if e < |p.bars| {
        assert Tone(f, c, p, e) == Tone(f, c, p, e + 1);
      }
    }
  }

  lemma EpochsBounded(p: Q)
    requires Inv(p)
    ensures forall r :: Live(p, r) && Plain(r) ==> r.epoch <= |p.bars|
  {
  }

  lemma AddedBars(p: Q, hard: bool, empty: bool, sorted: bool)
    ensures
      var r, q := NewRq(p, true, hard, empty), AddFs(p, hard, empty, sorted);
      && q.bars == (if hard then p.bars + [r] else p.bars) && q.nextId == p.nextId + 1
      && q.hist == p.hist && r.id == p.nextId && r.epoch == |p.bars|
  {
  }

  lemma AddedTones(f: nat -> bool, c: bool, p: Q, r: Req, q: Q)
    requires r.Rq? && f(r.id) == c && (q.bars == p.bars || q.bars == p.bars + [r])
    ensures forall e: nat :: e <= |p.bars| ==> Tone(f, c, q, e) == Tone(f, c, p, e)
    ensures Tone(f, c, p, |p.bars|) == c && Tone(f, c, q, |p.bars| + 1) == c
  {
  }

  lemma StepToned(f: nat -> bool, c: bool, p: Q, s: Step)
    requires Inv(p) && Toned(f, c, p) && Enabled(p, s) && !(s.SAddSpecial? && s.hard)
    ensures Toned(f, c, Apply(p, s))
  {
    match s
    case SAddFs(hard, empty, sorted) => AddToned(f, c, p, hard, empty, sorted);
    case SAddSpecial(_, front) => SpecialToned(f, c, p, false, front);
    case _ =>
      OtherKeeps(p, s);
      hide Inv, Toned, Apply, Enabled, Live;
      FewerToned(f, c, p, Apply(p, s));
  }

  lemma SpecialToned(f: nat -> bool, c: bool, p: Q, hard: bool, front: bool)
    requires Inv(p) && Toned(f, c, p)
    ensures Toned(f, c, SpecialAdded(p, hard, front))
    ensures !hard ==> Toned(f, c, AddSpecial(p, hard, front))
  {
    var q := SpecialAdded(p, hard, front);
    AddSpecialLive(p, hard, front);
    SpecialCounts(p, hard, front);
    LaterToned(f, c, p, q);
    hide Tone, Inv;
  }

  lemma SpecialCounts(p: Q, hard: bool, front: bool)
    ensures
      var q := SpecialAdded(p, hard, front);
      && q.bars == p.bars && q.nextId == p.nextId + 1 && q.hist == p.hist
      && (!hard ==> q == AddSpecial(p, hard, front))
  {
  }

  lemma LaterToned(f: nat -> bool, c: bool, p: Q, q: Q)
    requires Toned(f, c, p) && q.bars == p.bars && q.nextId >= p.nextId && q.hist == p.hist
    requires forall x :: Live(q, x) && Plain(x) ==> Live(p, x)
    ensures Toned(f, c, q)
  {
    hide Tone;
    FewerToned(f, c, p, q.(nextId := p.nextId));
    SameTones(f, c, q.(nextId := p.nextId), q);
    forall e | |q.hist.ended| <= e < |q.bars| && !EmptyBarrier(q.bars[e])
      ensures Tone(f, c, q, e) == Tone(f, c, q, e + 1)
    {
      assert Tone(f, c, q.(nextId := p.nextId), e) == Tone(f, c, q.(nextId := p.nextId), e + 1);
    }
  }

  /** No other step adds anything. */
  lemma OtherKeeps(p: Q, s: Step)
    requires Inv(p) && Enabled(p, s) && !s.SAddFs? && !s.SAddSpecial?
    ensures
      var q := Apply(p, s);
      && q.bars == p.bars && q.nextId == p.nextId && |q.hist.ended| >= |p.hist.ended|
      && forall x :: Live(q, x) && x.Rq? ==> Live(p, x)
  {
    hide Inv, Apply, Effective, Live;
    if Effective(p, s) {
      LivesOn(p, s);
      StepBars(p, s);
      EffectiveCounts(p, s);
    } else {
      IdleKeeps(p, s);
    }
  }

  lemma EffectiveCounts(p: Q, s: Step)
    requires Effective(p, s)
    ensures Apply(p, s).nextId == p.nextId && |Apply(p, s).hist.ended| >= |p.hist.ended|
  {
    match s
    case SNext => NextCounts(p);
    case SComplete(r, err, put) => CompleteCounts(p, r, err, put);
    case SLatePut => DrainCounts(p.(unput := p.unput - 1));
    case _ => hide Remove, InsertAt;
  }

  lemma DrainCounts(p: Q)
    ensures DrainCheck(p).nextId == p.nextId && |DrainCheck(p).hist.ended| >= |p.hist.ended|
  {
  }

  lemma CompleteCounts(p: Q, r: Req, err: int, put: bool)
    ensures Complete(p, r, err, put).nextId == p.nextId
    ensures |Complete(p, r, err, put).hist.ended| >= |p.hist.ended|
  {
    hide DrainCheck, Remove, Complete;
    var q := if r in p.list then Dequeue(p, r) else p;
    CompleteIs(p, r, err, put);
    DrainCounts(q.(inFlight := q.inFlight - B2I(Accounted(q, r)), driver := q.driver - {r},
                   started := q.started - {r}));
  }

  lemma NextCounts(p: Q)
    requires |p.list| > 0
    ensures NextTurn(p).0.nextId == p.nextId && |NextTurn(p).0.hist.ended| >= |p.hist.ended|
  {
    hide DoOrdered, Complete;
    DoOrderedCounts(p);
    CompleteCounts(DoOrdered(p).0, BarProxy, 0, true);
  }

  lemma DoOrderedCounts(p: Q)
    requires |p.list| > 0
    ensures DoOrdered(p).0.nextId == p.nextId && |DoOrdered(p).0.hist.ended| >= |p.hist.ended|
  {
    hide Proxies, CurSeq, ReqSeq, Special, SetSteps;
  }

  lemma IdleKeeps(p: Q, s: Step)
    requires Inv(p) && Enabled(p, s) && !s.SAddFs? && !s.SAddSpecial? && !Effective(p, s)
    ensures
      var q := Apply(p, s);
      && q.bars == p.bars && q.nextId == p.nextId && |q.hist.ended| >= |p.hist.ended|
      && forall x :: Live(q, x) && x.Rq? ==> Live(p, x)
  {
    match s
    case SRequeue(r) => RequeuePlaced(p, r);
    case _ =>
  }

  lemma StepQuiet(p: Q, s: Step)
    requires Inv(p) && p.mode.Drain? && Quiet(p) && Enabled(p, s)
    ensures Quiet(Apply(p, s))
  {
    match s
    case SNext => NextQuiet(p);
    case SComplete(r, err, put) => CompleteQuiet(p, r, err, put);
    case SLatePut => hide Inv;
    case _ => hide Inv, Remove, InsertAt, RequeueSlot;
  }

  lemma CompleteSeqQuiet(p: Q, step: nat, err: int)
    requires Quiet(p)
    ensures Quiet(CompleteSeq(p, step, err)) && Quiet(DrainCheck(p))
  {
  }

  lemma CompletedQuiet(p: Q, r: Req)
    requires Quiet(p)
    ensures Quiet(Completed(p, r))
  {
    hide DrainCheck;
    var q := p.(inFlight := p.inFlight - B2I(Accounted(p, r)), driver := p.driver - {r},
                started := p.started - {r});
    CompleteSeqQuiet(q, DRAIN, 0);
  }

  lemma FinishedQuiet(p: Q, r: Req, err: int, put: bool)
    requires Quiet(p)
    ensures Quiet(Finished(p, r, err, put))
  {
    hide Completed, CompleteSeq;
    CompletedQuiet(p, r);
    CompleteSeqQuiet(Completed(p, r), StepOf(r), err);
  }

  lemma CompleteQuiet(p: Q, r: Req, err: int, put: bool)
    requires Quiet(p)
    ensures Quiet(Complete(p, r, err, put))
  {
    CompleteIs(p, r, err, put);
    var q := if r in p.list then Dequeue(p, r) else p;
    assert Quiet(q) by {
      hide Remove;
    }
    hide Quiet, Complete, Finished, Dequeue;
    FinishedQuiet(q, r, err, put);
  }

  lemma StartQuiet(p: Q)
    requires |p.list| > 0 && p.list[0].Rq? && !p.mode.NoOrder?
    ensures Quiet(StartOrdered(p))
  {
    assert BarProxy in Proxies(p.mode, p.list[0].empty);
    hide Proxies;
  }

  lemma DoOrderedQuiet(p: Q)
    requires Quiet(p) && |p.list| > 0
    ensures Quiet(DoOrdered(p).0)
  {
    hide StartOrdered;
    if p.list[0].Rq? && !p.mode.NoOrder? {
      StartQuiet(p);
    }
  }

  lemma NextQuiet(p: Q)
    requires Quiet(p) && |p.list| > 0
    ensures Quiet(NextTurn(p).0)
  {
    hide DoOrdered, Complete;
    DoOrderedQuiet(p);
    CompleteQuiet(DoOrdered(p).0, BarProxy, 0, true);
  }

  lemma StepKnown(p: Q, s: Step)
    requires Inv(p) && Known(p) && Enabled(p, s)
    ensures Known(Apply(p, s))
  {
    hide Recorded, Placed, ProxiesHeld, Coloured, BarriersListed, NextTurn, Draining, DrainCheck, Complete;
    match s
    case SNext => NextKnown(p);
    case SComplete(r, err, put) => CompleteKnown(p, r, err, put);
    case SLatePut => KnownFrame(p, p.(unput := p.unput - 1)); DrainKnown(p.(unput := p.unput - 1));
    case SRequeue(r) => assert Live(p, r); hide InsertAt, RequeueSlot;
    case SDequeue(r) => KnownFrame(p, Apply(p, s));
    case SDispatch(r, _) => KnownFrame(p, Apply(p, s));
    case _ => hide Inv, Remove, InsertAt;
  }

  lemma DrainKnown(p: Q)
    requires Known(p)
    ensures Known(DrainCheck(p))
  {
  }

  lemma CompleteSeqKnown(p: Q, step: nat, err: int)
    requires Known(p)
    ensures Known(CompleteSeq(p, step, err))
  {
  }

  /** Only the sets and the history that hold what is known matter. */
  lemma KnownFrame(p: Q, q: Q)
    requires Known(p) && q.soft == p.soft && q.orig == p.orig && q.nextId == p.nextId
    requires q.hist.ended == p.hist.ended
    ensures Known(q)
  {
  }

  lemma CompletedKnown(p: Q, r: Req)
    requires Known(p)
    ensures Known(Completed(p, r))
  {
    hide Known, DrainCheck;
    var q := p.(inFlight := p.inFlight - B2I(Accounted(p, r)), driver := p.driver - {r},
                started := p.started - {r});
    KnownFrame(p, q);
    DrainKnown(q);
  }

  lemma CompleteKnown(p: Q, r: Req, err: int, put: bool)
    requires Known(p)
    ensures Known(Complete(p, r, err, put))
  {
    CompleteIs(p, r, err, put);
    var q := if r in p.list then Dequeue(p, r) else p;
    KnownFrame(p, q);
    KnownFrame(q, q.(driver := q.driver - {r}, started := q.started - {r}, unput := q.unput + 1));
    hide Known, Complete, Dequeue, Completed, CompleteSeq;
    CompletedKnown(q, r);
    CompleteSeqKnown(Completed(q, r), StepOf(r), err);
  }

  lemma DoOrderedKnown(p: Q)
    requires Known(p) && |p.list| > 0 && Numbered1(p, p.list[0])
    ensures Known(DoOrdered(p).0)
  {
    hide StartOrdered;
    if p.list[0].Rq? && !p.mode.NoOrder? {
      StartKnown(p);
    }
  }

  lemma NextKnown(p: Q)
    requires Inv(p) && Known(p) && |p.list| > 0
    ensures Known(NextTurn(p).0)
  {
    assert Live(p, p.list[0]) && Numbered1(p, p.list[0]);
    hide Inv, Known, DoOrdered, Complete;
    DoOrderedKnown(p);
    var (q, v) := DoOrdered(p);
    CompleteKnown(q, BarProxy, 0, true);
    if v.Pass? {
      KnownFrame(q, q.(started := q.started + {v.r}));
    }
  }

  lemma StartKnown(p: Q)
    requires Known(p) && |p.list| > 0 && p.list[0].Rq? && !p.mode.NoOrder? && Numbered1(p, p.list[0])
    ensures Known(StartOrdered(p))
  {
    hide Proxies;
    NoRq(p.mode, p.list[0].empty);
  }
}

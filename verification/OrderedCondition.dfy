/** When the barrier protocol is safe, exactly. */
module OrderedCondition {
  // `__elv_add_request` toggles the colour for any request with REQ_HARDBARRIER, but only a file-system
  // barrier starts a sequence; drivers/block/pktcdvd.c:782-783 adds packet commands with the flag.

  import opened Lists
  import opened OrderedQueue
  import opened OrderedInvariant
  import opened OrderedSteps
  import opened OrderedSequence
  import opened OrderedTheorems
  import opened OrderedProgress
  import opened OrderedHarm
  import opened OrderedRecolour
  import opened OrderedFlips

  /** Handing out the head is safe after every run in which no other such request is added. */
  ghost predicate AlwaysSafe(q: Q) {
    forall run, q1 | Runs(q, run, q1) && FsBarriersOnly(run) && |q1.list| > 0 && NextTurn(q1).1.Give? :: Safe(q1)
  }

  /** No ordinary request is queued or outstanding that was added after the newest barrier, and the newest
      barrier has been ended or carries no data. */
  ghost predicate Harmless(q: Q) {
    && (forall x :: Live(q, x) && Plain(x) ==> x.epoch < |q.bars|)
    && (|q.hist.ended| >= |q.bars| || EmptyBarrier(q.bars[|q.bars| - 1]))
  }

  /** Adding a request with REQ_HARDBARRIER that is not a file-system request, in any reachable state,
      leaves the protocol safe for ever if and only if the moment is harmless. */
  lemma HarmlessExactly(mode: Mode, q: Q, front: bool)
    requires mode.Drain? && Reachable(mode, q) && Enabled(q, SAddSpecial(true, front))
    ensures AlwaysSafe(AddSpecial(q, true, front)) <==> Harmless(q)
  {
    ReachableInv(mode, q);
    if Harmless(q) {
      ReachableAlike(mode, q);
      var f1, c1, p1 := HarmlessAdd(q, NoFlip, false, q, front);
      AlikeAlwaysSafe(AddSpecial(q, true, front), f1, c1, p1);
    } else {
      hide Inv, Reachable, Harmed, AlwaysSafe;
      HarmfulAdd(q, front);
      HarmedIsUnsafe(AddSpecial(q, true, front));
    }
  }

  /** Every run is safe in which such requests are added at harmless moments only. */
  lemma SafeRuns(mode: Mode, run: seq<Step>, q: Q)
    requires mode.Drain? && Runs(Init(mode), run, q) && HarmlessAdds(Init(mode), run)
    requires |q.list| > 0 && NextTurn(q).1.Give?
    ensures Safe(q)
  {
    InitAlike(mode);
    var f, c, p := AlikeRun(Init(mode), NoFlip, false, Init(mode), run, q);
    AlikeSafe(q, f, c, p);
  }

  ghost predicate HarmlessAdds(q: Q, run: seq<Step>)
    decreases |run|
  {
    run != [] && Enabled(q, run[0]) ==>
      (run[0].SAddSpecial? && run[0].hard ==> Harmless(q)) && HarmlessAdds(Apply(q, run[0]), run[1..])
  }

  // ----- harm -----

  lemma HarmedIsUnsafe(q: Q)
    requires Harmed(q)
    ensures !AlwaysSafe(q)
  {
  }

  lemma HarmfulAdd(q: Q, front: bool)
    requires Inv(q) && q.mode.Drain? && !Harmless(q)
    ensures Harmed(AddSpecial(q, true, front))
  {
    hide Inv, Harmed, SpecialAdded, AddSpecial, Live, EmptyBarrier;
    var p := SpecialAdded(q, true, front);
    SpecialAddedInv(q, true, front);
    PlainStay(q, front);
    EpochsBounded(q);
    if x :| Live(q, x) && Plain(x) && x.epoch >= |q.bars| {
      assert Newest(p, x);
      NewestHarms(p, x);
    } else {
      assert Unended(p);
      UnendedHarms(p);
    }
  }

  lemma PlainStay(q: Q, front: bool)
    requires Inv(q)
    ensures
      var p := SpecialAdded(q, true, front);
      && p.mode == q.mode && p.bars == q.bars && p.hist == q.hist
      && p.(ordcolor := !p.ordcolor) == AddSpecial(q, true, front)
      && forall x :: Plain(x) ==> (Live(p, x) <==> Live(q, x))
  {
    hide Live, Placed, ProxiesHeld, Coloured, BarriersListed, Recorded, Draining, InOrder, Awaited;
    AddSpecialLive(q, true, front);
  }

  /** A run from the empty queue that ends with an unsafe head: the first request is an ordinary one,
      the second the one that toggles the colour. */
  lemma Unsafe(mode: Mode) returns (run: seq<Step>, q: Q)
    requires mode.Drain?
    ensures Runs(Init(mode), run, q) && |q.list| > 0 && NextTurn(q).1.Give? && !Safe(q)
  {
    hide *;
    var s1, s2 := SAddFs(false, false, false), SAddSpecial(true, true);
    var q1 := AddFs(Init(mode), false, false, false);
    FirstAdds(mode);
    FirstHarm(mode);
    var run1;
    run1, q := Harm(AddSpecial(q1, true, true));
    RunsFirst(q1, s2, run1, q);
    RunsFirst(Init(mode), s1, [s2] + run1, q);
    run := [s1] + ([s2] + run1);
    HurtsIs(q);
  }

  lemma FirstAdds(mode: Mode)
    ensures
      var s1, s2, q1 := SAddFs(false, false, false), SAddSpecial(true, true), AddFs(Init(mode), false, false, false);
      && Enabled(Init(mode), s1) && Apply(Init(mode), s1) == q1
      && Enabled(q1, s2) && Apply(q1, s2) == AddSpecial(q1, true, true)
  {
  }

  lemma FirstHarm(mode: Mode)
    requires mode.Drain?
    ensures Harmed(AddSpecial(AddFs(Init(mode), false, false, false), true, true))
  {
    hide Inv, Harmed, Enabled, AddSpecial;
    var q1 := AddFs(Init(mode), false, false, false);
    InitInv(mode);
    FirstAdds(mode);
    StepInv(Init(mode), SAddFs(false, false, false));
    FirstPlain(mode);
    HarmfulAdd(q1, true);
  }

  lemma FirstPlain(mode: Mode)
    ensures
      var q1 := AddFs(Init(mode), false, false, false);
      q1.mode == mode && !Harmless(q1)
  {
    var q1 := AddFs(Init(mode), false, false, false);
    assert Live(q1, q1.list[0]) && Plain(q1.list[0]) && q1.list[0].epoch == |q1.bars|;
  }

  lemma Harm(q: Q) returns (run: seq<Step>, q1: Q)
    requires Harmed(q)
    ensures Runs(q, run, q1) && Hurts(q1)
  {
    hide Runs, Hurts;
    run, q1 :| Runs(q, run, q1) && FsBarriersOnly(run) && Hurts(q1);
  }

  lemma HurtsIs(q: Q)
    requires Hurts(q)
    ensures |q.list| > 0 && NextTurn(q).1.Give? && !Safe(q)
  {
  }

  lemma RunsFirst(q: Q, s: Step, run: seq<Step>, q1: Q)
    requires Enabled(q, s) && Runs(Apply(q, s), run, q1)
    ensures Runs(q, [s] + run, q1)
  {
    hide Enabled, Apply;
    assert ([s] + run)[1..] == run;
  }

  // ----- a queue that is like one without such requests -----

  const NoFlip: nat -> bool := (i: nat) => false

  /** `q` is `p` with other colours, and `p` is a queue as it is without such requests. */
  ghost predicate Alike(q: Q, f: nat -> bool, c: bool, p: Q) {
    q == Seen(f, c, p) && Inv(p) && p.mode.Drain? && Toned(f, c, p) && Quiet(p) && Known(p)
  }

  lemma NotFlipped(q: Q)
    ensures Seen(NoFlip, false, q) == q && Toned(NoFlip, false, q)
  {
    assert forall r :: Recol(NoFlip, r) == r;
    assert Each(NoFlip, q.list) == q.list && Each(NoFlip, q.bars) == q.bars;
    assert Ended(NoFlip, q.hist.ended) == q.hist.ended;
  }

  lemma InitAlike(mode: Mode)
    requires mode.Drain?
    ensures Alike(Init(mode), NoFlip, false, Init(mode))
  {
    hide Inv, Toned, Seen;
    InitInv(mode);
    NotFlipped(Init(mode));
  }

  lemma ReachableAlike(mode: Mode, q: Q)
    requires mode.Drain? && Reachable(mode, q)
    ensures Alike(q, NoFlip, false, q)
  {
    hide Alike, Runs;
    var run :| Runs(Init(mode), run, q) && FsBarriersOnly(run);
    InitAlike(mode);
    QuietRun(Init(mode), run, q);
  }

  lemma {:induction false} QuietRun(q: Q, run: seq<Step>, q1: Q)
    requires Alike(q, NoFlip, false, q) && Runs(q, run, q1) && FsBarriersOnly(run)
    ensures Alike(q1, NoFlip, false, q1)
    decreases |run|
  {
    hide Inv, Toned, Quiet, Known, Seen, Apply, Enabled;
    if run != [] {
      var s := run[0];
      StepInv(q, s);
      StepMode(q, s);
      StepQuiet(q, s);
      StepKnown(q, s);
      NotFlipped(Apply(q, s));
      assert forall i :: 0 <= i < |run[1..]| ==> run[1..][i] == run[i + 1];
      QuietRun(Apply(q, s), run[1..], q1);
    }
  }

  lemma AlikeStep(q: Q, f: nat -> bool, c: bool, p: Q, s: Step)
    requires Alike(q, f, c, p) && Enabled(q, s) && !(s.SAddSpecial? && s.hard)
    ensures Enabled(p, SeenStep(f, s)) && Alike(Apply(q, s), f, c, Apply(p, SeenStep(f, s)))
  {
    hide Inv, Toned, Quiet, Known, Seen, Apply, Enabled, SeenStep;
    var t := SeenStep(f, s);
    StepTwice(f, s);
    EnabledSeen(f, c, p, t);
    StepSeen(f, c, p, t);
    StepInv(p, t);
    StepMode(p, t);
    StepToned(f, c, p, t);
    StepQuiet(p, t);
    StepKnown(p, t);
  }

  lemma StepTwice(f: nat -> bool, s: Step)
    ensures SeenStep(f, SeenStep(f, s)) == s
    ensures SeenStep(f, s).SAddSpecial? == s.SAddSpecial? && (s.SAddSpecial? ==> SeenStep(f, s).hard == s.hard)
  {
  }

  /** From the request on, which has the next number, the others are flipped. */
  function Flipped(f: nat -> bool, c: bool, n: nat): nat -> bool { (i: nat) => if i > n then !c else f(i) }

  lemma HarmlessAdd(q: Q, f: nat -> bool, c: bool, p: Q, front: bool)
      returns (f1: nat -> bool, c1: bool, p1: Q)
    requires Alike(q, f, c, p) && Harmless(q)
    ensures Alike(AddSpecial(q, true, front), f1, c1, p1)
  {
    hide Inv, Toned, Quiet, Known, Seen, SpecialAdded, Harmless, Flipped;
    f1, c1, p1 := Flipped(f, c, p.nextId), !c, SpecialAdded(p, true, front);
    SpecialAddedInv(p, true, front);
    SameHarmless(f, c, p);
    FlipToned(f, c, p, front);
    FlipSeen(f, c, p, front);
    SpecialFacts(p, front);
  }

  lemma SpecialFacts(p: Q, front: bool)
    requires Quiet(p) && Known(p)
    ensures
      var p1 := SpecialAdded(p, true, front);
      Quiet(p1) && Known(p1) && p1.mode == p.mode
  {
  }

  lemma SameHarmless(f: nat -> bool, c: bool, p: Q)
    requires Harmless(Seen(f, c, p))
    ensures Harmless(p)
  {
    forall x | Live(p, x) && Plain(x) ensures x.epoch < |p.bars| {
      LiveSeen(f, c, p, x);
    }
    if |p.hist.ended| < |p.bars| {
      var b := p.bars[|p.bars| - 1];
      assert EmptyBarrier(Recol(f, b)) ==> EmptyBarrier(b);
    }
    hide Live, Plain, All, Recol;
  }

  lemma LiveSeen(f: nat -> bool, c: bool, p: Q, x: Req)
    requires Live(p, x)
    ensures Live(Seen(f, c, p), Recol(f, x)) && Plain(Recol(f, x)) == Plain(x)
    ensures Plain(x) ==> Recol(f, x).epoch == x.epoch
  {
    hide All, Each;
    AllHas(f, p.sched);
    AllHas(f, p.driver);
    EachHas(f, p.list);
    SameKind(f, x);
  }

  lemma AddedLive(p: Q, front: bool)
    requires Inv(p)
    ensures
      var q := SpecialAdded(p, true, front);
      && q.bars == p.bars && q.hist == p.hist && q.nextId == p.nextId + 1
      && forall x :: Live(q, x) && Plain(x) ==> Live(p, x) && x.id < p.nextId
  {
    AddSpecialLive(p, true, front);
    SpecialCounts(p, true, front);
    LiveNumbers(p);
    hide Live, Inv, SpecialAdded;
  }

  lemma FlipToned(f: nat -> bool, c: bool, p: Q, front: bool)
    requires Inv(p) && Toned(f, c, p) && Harmless(p)
    ensures Toned(Flipped(f, c, p.nextId), !c, SpecialAdded(p, true, front))
  {
    hide Live, Tone, Inv, SpecialAdded, Harmless, Flipped, Toned;
    var q := SpecialAdded(p, true, front);
    AddedLive(p, front);
    FlippedTones(f, c, p, q);
    LiveTones(f, c, p, q);
    TonesStay(f, c, p, q);
    FlippedLate(f, c, p.nextId);
    TonedIs(Flipped(f, c, p.nextId), !c, q);
  }

  lemma TonedIs(f: nat -> bool, c: bool, q: Q)
    requires forall i: nat :: i >= q.nextId ==> f(i) == c
    requires forall r :: Live(q, r) && Plain(r) ==> f(r.id) == Tone(f, c, q, r.epoch)
    requires forall e :: |q.hist.ended| <= e < |q.bars| && !EmptyBarrier(q.bars[e]) ==>
      Tone(f, c, q, e) == Tone(f, c, q, e + 1)
    ensures Toned(f, c, q)
  {
    hide Live, Tone;
  }

  lemma FlippedLate(f: nat -> bool, c: bool, n: nat)
    ensures forall i: nat :: i >= n + 1 ==> Flipped(f, c, n)(i) == !c
  {
  }

  lemma LiveTones(f: nat -> bool, c: bool, p: Q, q: Q)
    requires Toned(f, c, p) && Harmless(p)
    requires forall x :: Live(q, x) && Plain(x) ==> Live(p, x) && x.id < p.nextId
    requires forall e: nat :: e < |p.bars| ==> Tone(Flipped(f, c, p.nextId), !c, q, e) == Tone(f, c, p, e)
    ensures forall r :: Live(q, r) && Plain(r) ==>
      Flipped(f, c, p.nextId)(r.id) == Tone(Flipped(f, c, p.nextId), !c, q, r.epoch)
  {
    hide Live, Tone;
  }

  lemma TonesStay(f: nat -> bool, c: bool, p: Q, q: Q)
    requires Toned(f, c, p) && Harmless(p) && q.bars == p.bars && q.hist == p.hist
    requires forall e: nat :: e < |p.bars| ==> Tone(Flipped(f, c, p.nextId), !c, q, e) == Tone(f, c, p, e)
    ensures forall e :: |q.hist.ended| <= e < |q.bars| && !EmptyBarrier(q.bars[e]) ==>
      Tone(Flipped(f, c, p.nextId), !c, q, e) == Tone(Flipped(f, c, p.nextId), !c, q, e + 1)
  {
    hide Tone, Flipped;
    forall e | |q.hist.ended| <= e < |q.bars| && !EmptyBarrier(q.bars[e])
      ensures Tone(Flipped(f, c, p.nextId), !c, q, e) == Tone(Flipped(f, c, p.nextId), !c, q, e + 1)
    {
      assert Tone(f, c, p, e) == Tone(f, c, p, e + 1);
    }
  }

  lemma LiveNumbers(p: Q)
    requires Inv(p)
    ensures forall r :: Live(p, r) && r.Rq? ==> r.id < p.nextId
  {
  }

  lemma FlippedTones(f: nat -> bool, c: bool, p: Q, q: Q)
    requires Inv(p) && q.bars == p.bars
    ensures forall e: nat :: e < |p.bars| ==> Tone(Flipped(f, c, p.nextId), !c, q, e) == Tone(f, c, p, e)
  {
  }

  lemma FlipSeen(f: nat -> bool, c: bool, p: Q, front: bool)
    requires Inv(p) && Toned(f, c, p) && Known(p)
    ensures AddSpecial(Seen(f, c, p), true, front) ==
      Seen(Flipped(f, c, p.nextId), !c, SpecialAdded(p, true, front))
  {
    assert f(p.nextId) == c;
    OldFlips(f, c, p, front);
    SameFlips(f, c, p, SpecialAdded(p, true, front), front);
    hide Inv, Toned, Known, SpecialAdded, Seen, Flipped;
  }

  /** Flipped the old way, it is only the colour of the next request that is not right. */
  lemma OldFlips(f: nat -> bool, c: bool, p: Q, front: bool)
    requires f(p.nextId) == c
    ensures AddSpecial(Seen(f, c, p), true, front) ==
      Seen(f, c, SpecialAdded(p, true, front)).(ordcolor := SpecialAdded(p, true, front).ordcolor != !c)
  {
    hide Recol, All, NewRq;
    var r := NewRq(p, false, true, false);
    NewSeen(f, c, p, false, true, false);
    EachConcat(f, p.list, [r]);
    EachConcat(f, [r], p.list);
    EachOne(f, r);
    AllAdd(f, p.soft, r);
  }

  /** The two ways of flipping agree on every request that was added so far. */
  lemma SameFlips(f: nat -> bool, c: bool, p: Q, q: Q, front: bool)
    requires Inv(p) && Known(p) && q == SpecialAdded(p, true, front)
    ensures Seen(Flipped(f, c, p.nextId), !c, q) == Seen(f, c, q).(ordcolor := q.ordcolor != !c)
  {
    var f1, n := Flipped(f, c, p.nextId), p.nextId + 1;
    AddedNumbers(p, front);
    SameRecols(f, f1, n);
    hide Inv, Known, SpecialAdded, Flipped, Recol, All;
    EachSame(f, f1, q.list, n);
    EachSame(f, f1, q.bars, n);
    AllSame(f, f1, q.sched, n);
    AllSame(f, f1, q.driver, n);
    AllSame(f, f1, q.started, n);
    AllSame(f, f1, q.soft, n);
    assert Ended(f1, q.hist.ended) == Ended(f, q.hist.ended);
  }

  predicate Below(r: Req, n: nat) { r.Rq? ==> r.id < n }

  lemma AddedNumbers(p: Q, front: bool)
    requires Inv(p) && Known(p)
    ensures
      var q, n := SpecialAdded(p, true, front), p.nextId + 1;
      && (forall r :: r in q.list || r in q.bars || r in q.sched || r in q.driver || r in q.started || r in q.soft
            ==> Below(r, n))
      && Below(q.orig, n) && forall i :: 0 <= i < |q.hist.ended| ==> Below(q.hist.ended[i].0, n)
  {
    hide ProxiesHeld, Coloured, BarriersListed, Recorded, Draining, InOrder, Awaited;
    LiveNumbers(p);
    assert forall r :: r in p.started ==> Live(p, r);
  }

  lemma SameRecols(f: nat -> bool, f1: nat -> bool, n: nat)
    requires forall i: nat :: i < n ==> f1(i) == f(i)
    ensures forall r :: Below(r, n) ==> Recol(f1, r) == Recol(f, r)
  {
  }

  lemma EachSame(f: nat -> bool, f1: nat -> bool, l: seq<Req>, n: nat)
    requires forall r :: Below(r, n) ==> Recol(f1, r) == Recol(f, r)
    requires forall r :: r in l ==> Below(r, n)
    ensures Each(f1, l) == Each(f, l)
  {
    hide Recol;
  }

  lemma AllSame(f: nat -> bool, f1: nat -> bool, s: set<Req>, n: nat)
    requires forall r :: Below(r, n) ==> Recol(f1, r) == Recol(f, r)
    requires forall r :: r in s ==> Below(r, n)
    ensures All(f1, s) == All(f, s)
  {
    hide Recol;
  }

  lemma {:induction false} AlikeRun(q: Q, f: nat -> bool, c: bool, p: Q, run: seq<Step>, q1: Q)
      returns (f1: nat -> bool, c1: bool, p1: Q)
    requires Alike(q, f, c, p) && Runs(q, run, q1) && HarmlessAdds(q, run)
    ensures Alike(q1, f1, c1, p1)
    decreases |run|
  {
    hide Alike, Apply, Enabled, Harmless, SeenStep;
    if run == [] {
      f1, c1, p1 := f, c, p;
    } else {
      var s := run[0];
      var f2, c2, p2;
      if s.SAddSpecial? && s.hard {
        f2, c2, p2 := HarmlessAdd(q, f, c, p, s.front);
        AppliesSpecial(q, s);
      } else {
        AlikeStep(q, f, c, p, s);
        f2, c2, p2 := f, c, Apply(p, SeenStep(f, s));
      }
      f1, c1, p1 := AlikeRun(Apply(q, s), f2, c2, p2, run[1..], q1);
    }
  }

  lemma AppliesSpecial(q: Q, s: Step)
    requires Enabled(q, s) && s.SAddSpecial?
    ensures Apply(q, s) == AddSpecial(q, s.hard, s.front)
  {
  }

  // ----- safety carries over -----

  /** Nothing in what safety says depends on colours. */
  lemma SafeSeen(f: nat -> bool, c: bool, q: Q, r: Req, p: Q, o: Req)
    requires q == Seen(f, c, p) && r == Recol(f, o)
    ensures forall x :: Live(q, x) <==> Live(p, Recol(f, x))
    ensures forall x :: x in q.driver <==> Recol(f, x) in p.driver
    ensures OlderEnded(p) ==> OlderEnded(q)
    ensures Barrier(r) == Barrier(o) && OfFs(r) == OfFs(o) && Arrived(r) == Arrived(o) && r.Rq? == o.Rq?
    ensures Arrived(q.orig) == Arrived(p.orig) && q.ord == p.ord
  {
    hide Recol, All;
    AllHas(f, p.sched);
    AllHas(f, p.driver);
    EachHas(f, p.list);
    SameKind(f, o);
    SameKind(f, p.orig);
  }

  lemma NotEmpty(f: nat -> bool, c: bool, p: Q)
    ensures |Seen(f, c, p).list| == |p.list|
  {
  }

  lemma AlikeSafe(q: Q, f: nat -> bool, c: bool, p: Q)
    requires Alike(q, f, c, p) && |q.list| > 0 && NextTurn(q).1.Give?
    ensures Safe(q)
  {
    hide Inv, Toned, Quiet, Known, Seen, NextTurn, Recol, OlderEnded, Barrier, OfFs, Arrived, Live;
    NotEmpty(f, c, p);
    NextAlike(f, c, p);
    InvIsSafe(p);
    var (p1, o) := NextTurn(p);
    SafeSeen(f, c, NextTurn(q).0, NextTurn(q).1.r, p1, o.r);
    forall x ensures OfFs(Recol(f, x)) == OfFs(x) && Arrived(Recol(f, x)) == Arrived(x) {
      SameKind(f, x);
    }
  }

  lemma AlikeAlwaysSafe(q: Q, f: nat -> bool, c: bool, p: Q)
    requires Alike(q, f, c, p)
    ensures AlwaysSafe(q)
  {
    forall run, q1 | Runs(q, run, q1) && FsBarriersOnly(run) && |q1.list| > 0 && NextTurn(q1).1.Give?
      ensures Safe(q1)
    {
      OnlyHarmless(q, run);
      var f1, c1, p1 := AlikeRun(q, f, c, p, run, q1);
      AlikeSafe(q1, f1, c1, p1);
    }
  }

  lemma {:induction false} OnlyHarmless(q: Q, run: seq<Step>)
    requires FsBarriersOnly(run)
    ensures HarmlessAdds(q, run)
    decreases |run|
  {
    hide Enabled, Apply, Harmless;
    if run != [] && Enabled(q, run[0]) {
      assert forall i :: 0 <= i < |run[1..]| ==> run[1..][i] == run[i + 1];
      OnlyHarmless(Apply(q, run[0]), run[1..]);
    }
  }
}

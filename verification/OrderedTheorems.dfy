/** Barriers over every run. */
module OrderedTheorems {
  import opened Lists
  import opened OrderedQueue
  import opened OrderedInvariant
  import opened OrderedSteps
  import opened OrderedSequence

  lemma StepMode(q: Q, s: Step)
    requires Enabled(q, s)
    ensures Apply(q, s).mode == q.mode
  {
    hide CompleteSeq, DrainCheck, DoOrdered;
  }

  lemma {:induction false} RunInv(q: Q, run: seq<Step>, q1: Q)
    requires Inv(q) && Runs(q, run, q1) && FsBarriersOnly(run)
    ensures Inv(q1) && q1.mode == q.mode
    decreases |run|
  {
    hide Inv, Apply;
    if run != [] {
      StepInv(q, run[0]);
      StepMode(q, run[0]);
      assert forall i :: 0 <= i < |run[1..]| ==> run[1..][i] == run[i + 1];
      RunInv(Apply(q, run[0]), run[1..], q1);
    }
  }

  /** A state of some run in which only file-system requests carry REQ_HARDBARRIER. */
  ghost predicate Reachable(mode: Mode, q: Q) {
    exists run :: Runs(Init(mode), run, q) && FsBarriersOnly(run)
  }

  lemma ReachableInv(mode: Mode, q: Q)
    requires Reachable(mode, q)
    ensures Inv(q) && q.mode == mode
  {
    hide Inv;
    var run :| Runs(Init(mode), run, q) && FsBarriersOnly(run);
    InitInv(mode);
    RunInv(Init(mode), run, q);
  }

  /** Requests leave the queue only by being completed; a barrier leaves it when its own
      sequence begins or when it is refused. */
  lemma NothingLost(mode: Mode, q: Q, s: Step, x: Req)
    requires Reachable(mode, q) && Enabled(q, s)
    requires Live(q, x) && !Live(Apply(q, s), x)
    ensures || (s.SComplete? && s.r == x)
            || (s.SNext? && (x.BarProxy? || (Barrier(x) && x == q.list[0])))
  {
    ReachableInv(mode, q);
    NothingLostWf(q, s, x);
  }

  lemma NothingLostWf(q: Q, s: Step, x: Req)
    requires Placed(q) && ProxiesHeld(q) && Enabled(q, s)
    requires Live(q, x) && !Live(Apply(q, s), x)
    ensures || (s.SComplete? && s.r == x)
            || (s.SNext? && (x.BarProxy? || (Barrier(x) && x == q.list[0])))
  {
    match s
    case SDispatch(r, pos) => InsertReq(q.list, pos, r);
    case SDequeue(r) => RemoveReq(q.list, r);
    case SRequeue(r) => RequeuePlaced(q, r);
    case SComplete(r, err, put) => if x != r { CompleteLoses(q, r, err, put, x); }
    case SNext => NextLoses(q, x);
    case _ =>
  }

  lemma CompleteLoses(q: Q, r: Req, err: int, put: bool, x: Req)
    requires Placed(q) && r in q.started && Live(q, x) && x != r
    ensures Live(Complete(q, r, err, put), x)
  {
    GonePlaced(q, r);
    CompleteUnfolds(q, r, err, put);
    assert Live(Gone(q, r), x);
  }

  lemma NextLoses(q: Q, x: Req)
    requires ProxiesHeld(q) && |q.list| > 0 && Live(q, x) && !Live(NextTurn(q).0, x)
    ensures x.BarProxy? || (Barrier(x) && x == q.list[0])
  {
    var q1 := DoOrdered(q).0;
    assert Held(q, BarProxy) ==> q.ord.started;
    if Live(q1, x) && !x.BarProxy? {
      NextTurnLoses(q, x);
    } else if !x.BarProxy? {
      DoOrderedLoses(q, x);
    }
  }

  lemma NextTurnLoses(q: Q, x: Req)
    requires |q.list| > 0 && Live(DoOrdered(q).0, x) && !x.BarProxy?
    ensures Live(NextTurn(q).0, x)
  {
    hide DoOrdered, CompleteSeq, DrainCheck;
    var q1 := DoOrdered(q).0;
    if BarProxy in q1.list { RemoveOnly(q1.list, BarProxy); }
  }

  lemma DoOrderedLoses(q: Q, x: Req)
    requires |q.list| > 0 && Live(q, x) && !Live(DoOrdered(q).0, x)
    requires BarProxy in q.list ==> q.ord.started
    ensures Barrier(x) && x == q.list[0]
  {
    var q1 := DoOrdered(q).0;
    forall y | y in q.list && y != q.list[0] ensures y in q1.list {
      var i :| 0 <= i < |q.list| && q.list[i] == y;
      assert q.list[1..][i - 1] == y;
      assert y in q.list[1..];
    }
  }

  lemma RemoveOnly(l: seq<Req>, r: Req)
    requires r in l
    ensures forall x :: x in l && x != r ==> x in Remove(l, r)
  {
    var k := Index(l, r);
    forall x | x in l && x != r ensures x in Remove(l, r) {
      var i :| 0 <= i < |l| && l[i] == x;
      assert Remove(l, r)[if i < k then i else i - 1] == x;
    }
  }

  /** Barrier safety.  When a step of a sequence is handed to the driver, every file-system
      request added before the barrier has been completed, and every older barrier has been ended;
      while a sequence runs, whatever file-system request is handed out or is with the driver was
      added before the barrier. */
  lemma BarrierSafety(mode: Mode, q: Q)
    requires mode.Drain? && Reachable(mode, q) && |q.list| > 0 && NextTurn(q).1.Give?
    ensures Safe(q)
  {
    ReachableInv(mode, q);
    InvIsSafe(q);
  }

  lemma InvIsSafe(q: Q)
    requires Inv(q) && q.mode.Drain? && |q.list| > 0 && NextTurn(q).1.Give?
    ensures Safe(q)
  {
    hide Inv, NextTurn, OlderEnded;
    NextInv(q);
    NextGives(q);
    StepMode(q, SNext);
    var q1 := NextTurn(q).0;
    StartedIsDue(q1, NextTurn(q).1.r);
  }

  predicate OfFs(r: Req) { r.Rq? && r.fs }

  /** What BarrierSafety promises of handing out the head of the list. */
  ghost predicate Safe(q: Q)
    requires |q.list| > 0 && NextTurn(q).1.Give?
  {
    var q1 := NextTurn(q).0;
    var r := NextTurn(q).1.r;
    && (!r.Rq? ==>
          && q1.ord.started
          && forall x :: Live(q1, x) && OfFs(x) ==> Arrived(x) > Arrived(q1.orig))
    && (q1.ord.started && OfFs(r) ==> Arrived(r) < Arrived(q1.orig))
    && (q1.ord.started ==>
          forall x :: x in q1.driver && OfFs(x) ==> Arrived(x) < Arrived(q1.orig))
    && (q1.ord.started ==> OlderEnded(q1))
    && !Barrier(r)
  }

  /** The running barrier is the oldest that is not ended: all before it are, in order. */
  ghost predicate OlderEnded(q: Q) {
    var n := |q.hist.ended|;
    && n < |q.bars| && q.orig == q.bars[n]
    && forall i :: 0 <= i < n ==> q.hist.ended[i].0 == q.bars[i]
  }

  lemma NextGives(q: Q)
    requires |q.list| > 0 && NextTurn(q).1.Give?
    ensures NextTurn(q).1.r in NextTurn(q).0.started
  {
  }

  lemma StartedIsDue(q1: Q, r: Req)
    requires Inv(q1) && q1.mode.Drain? && r in q1.started
    ensures !r.Rq? ==>
              && q1.ord.started
              && forall x :: Live(q1, x) && OfFs(x) ==> Arrived(x) > Arrived(q1.orig)
    ensures q1.ord.started && OfFs(r) ==> Arrived(r) < Arrived(q1.orig)
    ensures q1.ord.started ==>
              forall x :: x in q1.driver && OfFs(x) ==> Arrived(x) < Arrived(q1.orig)
    ensures q1.ord.started ==> OlderEnded(q1)
    ensures !Barrier(r)
  {
    StartedHeld(q1, r);
    if q1.ord.started {
      EndedBefore(q1);
    }
    hide Awaited, InOrder, Recorded, Coloured, OlderEnded;
    Ages(q1);
    LiveBarriers(q1);
    assert forall x :: x in q1.driver ==> Live(q1, x);
    assert Live(q1, r);
    hide BarriersListed, Numbered;
  }

  lemma EndedBefore(q: Q)
    requires EndsRecorded(q) && BarriersListed(q) && q.ord.started
    ensures OlderEnded(q)
  {
  }

  /** A barrier that is still to be processed is younger than the running one, and in the list. */
  lemma LiveBarriers(q: Q)
    requires Placed(q) && Numbered(q) && BarriersListed(q)
    ensures forall x :: Live(q, x) && Barrier(x) ==> x in q.list && x !in q.driver
    ensures q.ord.started ==>
              forall x :: Live(q, x) && Barrier(x) ==> Arrived(x) > Arrived(q.orig)
  {
  }

  /** Epochs and arrival numbers tell the same story about the current barrier. */
  lemma Ages(q: Q)
    requires Numbered(q) && BarriersListed(q)
    ensures q.ord.started ==>
              forall x :: Live(q, x) && Plain(x) ==>
                && Arrived(x) != Arrived(q.orig)
                && (Arrived(x) < Arrived(q.orig) <==> x.epoch <= q.hist.begun - 1)
  {
  }

  /** One colour bit is enough: for every request that can be at the head or be requeued
      during a sequence, having the barrier's colour means having been added before it. */
  lemma ColourIsAge(mode: Mode, q: Q, r: Req)
    requires mode.Drain? && Reachable(mode, q) && q.ord.started && r.Rq? && r.fs
    requires (|q.list| > 0 && r == q.list[0]) || r in q.driver
    ensures ReqSeq(OrigColor(q), r) == DRAIN <==> Arrived(r) < Arrived(q.orig)
  {
    hide Inv, Reachable, ReqSeq, OrigColor;
    ReachableInv(mode, q);
    if r in q.driver { DriverColour(q, r); } else { HeadColour(q); }
  }

  lemma DriverColour(q: Q, r: Req)
    requires Inv(q) && q.mode.Drain? && q.ord.started && r in q.driver && OfFs(r)
    ensures ReqSeq(OrigColor(q), r) == DRAIN && Arrived(r) < Arrived(q.orig)
  {
    hide Numbered, Recorded, InOrder, Awaited, ProxiesHeld, Sorted;
    Ages(q);
    assert Live(q, r);
  }

  lemma HeadColour(q: Q)
    requires Inv(q) && q.mode.Drain? && q.ord.started && |q.list| > 0 && OfFs(q.list[0])
    ensures ReqSeq(OrigColor(q), q.list[0]) == DRAIN <==> Arrived(q.list[0]) < Arrived(q.orig)
  {
    hide Coloured, Numbered, Recorded, Draining, InOrder, Awaited, ProxiesHeld, ReqSeq, OrigColor;
    ColourTells(q, 0);
    Ages(q);
    LiveBarriers(q);
    assert Live(q, q.list[0]);
  }

  /** Elsewhere in the list the colour may be re-used by newer requests, but then a request of
      the other colour stands before them and blocks the queue. */
  lemma ReusedColourBlocked(mode: Mode, q: Q, i: nat)
    requires mode.Drain? && Reachable(mode, q) && q.ord.started && i < |q.list| && Plain(q.list[i])
    requires ReqSeq(OrigColor(q), q.list[i]) == DRAIN && Arrived(q.list[i]) > Arrived(q.orig)
    ensures exists j :: 0 <= j < i && ReqSeq(OrigColor(q), q.list[j]) == DONE
  {
    hide Inv, Reachable;
    ReachableInv(mode, q);
    NewerAlike(q, i);
    hide ReqSeq, OrigColor;
    InvParts(q);
    NextBarrierFirst(q, i);
  }

  lemma InvParts(q: Q)
    requires Inv(q) && q.mode.Drain?
    ensures Coloured(q) && BarriersListed(q) && Draining(q)
  {
    hide Coloured, BarriersListed, Draining;
  }

  /** A newer request of the barrier's colour came after another barrier. */
  lemma NewerAlike(q: Q, i: nat)
    requires Inv(q) && q.mode.Drain? && q.ord.started && i < |q.list| && Plain(q.list[i])
    requires ReqSeq(OrigColor(q), q.list[i]) == DRAIN && Arrived(q.list[i]) > Arrived(q.orig)
    ensures q.list[i].epoch > q.hist.begun
  {
    hide Numbered, Recorded, InOrder, Awaited, ProxiesHeld, Draining, Placed;
    Ages(q);
    assert Live(q, q.list[i]);
  }

  /** The warning in blk_do_ordered never fires: nothing at the head is overdue. */
  lemma HeadNotOverdue(mode: Mode, q: Q)
    requires mode.Drain? && Reachable(mode, q) && q.ord.started
    requires |q.list| > 0 && !Special(q.list[0])
    ensures ReqSeq(OrigColor(q), q.list[0]) >= CurSeq(q.ord)
  {
    ReachableInv(mode, q);
    var h := q.list[0];
    assert Live(q, h);
    if h.Rq? { ColourTells(q, 0); } else { assert Held(q, h); }
  }

  /** No step is completed when its bit is already set: the BUG_ON in
      blk_ordered_complete_seq cannot fire. */
  lemma NoDoubleCompletion(mode: Mode, q: Q, p: Req)
    requires Reachable(mode, q) && !p.Rq? && Held(q, p)
    ensures q.ord.started && !HasBit(q.ord, StepOf(p))
  {
    ReachableInv(mode, q);
  }

  /** A finished sequence has completed each step it did not skip exactly once, in ascending
      order when draining, and has ended the barrier with the first error reported. */
  lemma SequenceComplete(mode: Mode, q: Q)
    requires Reachable(mode, q) && !mode.NoOrder? && !q.ord.started && q.hist.begun > 0
    ensures forall s :: IsStep(s) ==> (s in q.hist.trace <==> s !in q.hist.skipped)
    ensures forall i, j :: 0 <= i < j < |q.hist.trace| ==> q.hist.trace[i] != q.hist.trace[j]
    ensures BAR in q.hist.trace
    ensures mode.Drain? ==> forall i, j :: 0 <= i < j < |q.hist.trace| ==> q.hist.trace[i] < q.hist.trace[j]
    ensures |q.hist.ended| == q.hist.begun <= |q.bars|
    ensures q.hist.ended[q.hist.begun - 1] == (q.bars[q.hist.begun - 1], FirstError(q.hist.errs))
  {
    ReachableInv(mode, q);
    assert forall s :: IsStep(s) ==> Marked(q, s);
    assert Marked(q, BAR);
  }

  /** Every barrier is ended at most once, and in the order in which barriers were added. */
  lemma BarriersEndInOrder(mode: Mode, q: Q)
    requires Reachable(mode, q)
    ensures |q.hist.ended| <= |q.bars|
    ensures forall i :: 0 <= i < |q.hist.ended| ==> q.hist.ended[i].0 == q.bars[i]
    ensures forall i, j :: 0 <= i < j < |q.hist.ended| ==> q.hist.ended[i].0 != q.hist.ended[j].0
    ensures mode.NoOrder? && !q.ord.started && q.hist.ended != [] ==> q.hist.ended[|q.hist.ended| - 1].1 == -95
  {
    ReachableInv(mode, q);
    forall i, j | 0 <= i < j < |q.hist.ended| ensures q.hist.ended[i].0 != q.hist.ended[j].0 {
      assert q.bars[i].id < q.bars[j].id;
    }
  }

  // ----- progress -----

  /** With nothing outstanding, the head of the list is let through when draining. */
  lemma DrainHeadAdmitted(mode: Mode, q: Q)
    requires mode.Drain? && Inv(q) && q.mode == mode && |q.list| > 0 && q.driver == {} && q.unput == 0
    ensures !NextTurn(q).1.Nothing?
  {
    hide Coloured, Numbered, StepsRecorded, EndsRecorded, Complete;
    var h := q.list[0];
    assert FsOf(q.driver) == {};
    if q.ord.started && !Special(h) && q.ord.drain {
      StepQueued(q);
    }
  }

  /** The current step is queued, and only special requests may stand before it. */
  lemma StepQueued(q: Q)
    requires Wf(q) && Draining(q) && q.ord.started && q.ord.drain && q.driver == {}
    requires |q.list| > 0 && !Special(q.list[0])
    ensures !q.list[0].Rq? && StepOf(q.list[0]) == CurSeq(q.ord)
  {
    var h := q.list[0];
    var p := if !q.ord.pre then PreFlush else if !q.ord.bar then BarProxy else PostFlush;
    assert Held(q, p);
    var j :| 0 <= j < |q.list| && q.list[j] == p;
    assert Live(q, h);
    assert Rank(q.hist.begun, h) <= Rank(q.hist.begun, q.list[j]);
    assert !h.Rq? ==> Held(q, h);
  }

  lemma AgainKeeps(q: Q)
    requires |q.list| > 0 && NextTurn(q).1.Again? && q.driver == {}
    ensures NextTurn(q).0.driver == {} && NextTurn(q).0.unput == q.unput
    ensures NextTurn(q).0.mode == q.mode
  {
    hide CompleteSeq, DrainCheck, DoOrdered;
    var q1 := DoOrdered(q).0;
    if DoOrdered(q).1.Pass? {
      assert q1.driver + {BarProxy} - {BarProxy} == {};
    }
  }
}

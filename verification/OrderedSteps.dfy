/** The steps of the barrier protocol that move requests without ending any: a dispatch from the
    scheduler, handing a request to the driver, and a requeue.  Each keeps the invariant.  The
    colour lemmas are here as well: what the colour of a request says about its place in the
    list, and why the next barrier stands before every request that has the old colour again. */
module OrderedSteps {
  import opened Lists
  import opened OrderedQueue
  import opened OrderedInvariant

  // ----- dispatching from the scheduler -----

  /** While the queue drains, the barrier's proxy waits in the list. */
  lemma ProxyWaits(q: Q)
    requires Recorded(q) && InOrder(q) && Draining(q) && ProxiesHeld(q) && Placed(q)
    requires q.ord.started && !q.ord.drain
    ensures BarProxy in q.list && !q.ord.bar
  {
    assert Marked(q, BAR) ==> BAR in q.hist.trace;
    assert Held(q, BarProxy);
  }

  /** A later request of the current list region is of the latest epoch, or something that
      stops a dispatch stands behind it. */
  lemma BoundaryBehind(q: Q, i: nat)
    requires Recorded(q) && InOrder(q) && Draining(q) && ProxiesHeld(q) && Placed(q)
    requires BarriersListed(q) && Coloured(q)
    requires i < |q.list| && Plain(q.list[i])
    requires q.list[i].epoch < |q.bars|
    ensures exists j :: i < j < |q.list| && IsHard(q.list[j])
  {
    var e := q.list[i].epoch;
    assert Live(q, q.list[i]);
    if e >= q.hist.begun {
      var j :| 0 <= j < |q.list| && q.list[j] == q.bars[e];
      assert i < j;
    } else {
      ProxyWaits(q);
      var j :| 0 <= j < |q.list| && q.list[j] == BarProxy;
      assert i < j;
    }
  }

  lemma DispatchSorted(q: Q, r: Req, pos: nat)
    requires Wf(q) && Draining(q) && InOrder(q) && r in q.sched && DispatchSlot(q, pos)
    ensures Sorted(q.hist.begun, InsertAt(q.list, pos, r))
  {
    forall i | 0 <= i < pos && Ranked(q.list[i])
      ensures Rank(q.hist.begun, q.list[i]) <= Rank(q.hist.begun, r)
    {
      assert Live(q, q.list[i]);
    }
    forall i | pos <= i < |q.list| && Ranked(q.list[i])
      ensures Rank(q.hist.begun, r) <= Rank(q.hist.begun, q.list[i])
    {
      assert !Stops(q, q.list[i]);
      if q.list[i].epoch < |q.bars| {
        BoundaryBehind(q, i);
      }
    }
    SortedInsert(q.hist.begun, q.list, pos, r);
  }

  lemma DispatchPlaced(q: Q, r: Req, pos: nat)
    requires Placed(q) && r in q.sched && pos <= |q.list|
    ensures Placed(Dispatch(q, r, pos))
    ensures forall x :: Live(Dispatch(q, r, pos), x) <==> Live(q, x)
    ensures forall x :: !Plain(x) ==> (x in Dispatch(q, r, pos).list <==> x in q.list)
    ensures forall x: Req :: !x.Rq? ==> (Held(Dispatch(q, r, pos), x) <==> Held(q, x))
  {
    InsertReq(q.list, pos, r);
  }

  lemma DispatchAwaited(q: Q, r: Req, pos: nat)
    requires Recorded(q) && InOrder(q) && Draining(q) && ProxiesHeld(q) && Placed(q)
    requires Awaited(q) && DispatchSlot(q, pos)
    ensures Awaited(Dispatch(q, r, pos))
  {
    if q.ord.started && !q.ord.drain {
      ProxyWaits(q);
      var j :| 0 <= j < |q.list| && q.list[j] == BarProxy;
      assert Stops(q, q.list[j]);
      assert Dispatch(q, r, pos).list[0] == q.list[0];
    }
  }

  lemma DispatchInv(q: Q, r: Req, pos: nat)
    requires Inv(q) && Enabled(q, SDispatch(r, pos))
    ensures Inv(Dispatch(q, r, pos))
  {
    hide Placed, ProxiesHeld, Coloured, BarriersListed, Numbered, Recorded, Draining, Awaited, Sorted, Live, Held;
    var q1 := Dispatch(q, r, pos);
    DispatchPlaced(q, r, pos);
    KeepFrame(q, q1);
    if q.mode.Drain? {
      DispatchSorted(q, r, pos);
      DrainingFrame(q, q1);
      DispatchAwaited(q, r, pos);
    }
  }

  /** A step that moves requests around without ending, adding or starting a barrier. */
  lemma KeepFrame(q: Q, q1: Q)
    requires Wf(q) && Placed(q1)
    requires forall x :: Live(q1, x) ==> Live(q, x)
    requires forall x: Req :: !x.Rq? ==> (Held(q1, x) <==> Held(q, x))
    requires forall x :: Barrier(x) ==> (x in q1.list <==> x in q.list)
    requires q1 == q.(list := q1.list, sched := q1.sched, driver := q1.driver,
                      started := q1.started, soft := q1.soft, inFlight := q1.inFlight,
                      unput := q1.unput)
    ensures Wf(q1)
  {
    hide Placed, Coloured, Numbered, Recorded, Live, Held;
    ColouredFrame(q, q1);
    NumberedFrame(q, q1);
    BarriersFrame(q, q1);
    RecordedFrame(q, q1);
  }

  // ----- handing a request to the driver and back -----

  lemma DequeuePlaced(q: Q, r: Req)
    requires Placed(q) && r in q.list && r in q.started
    ensures Placed(Dequeue(q, r))
    ensures forall x :: Live(Dequeue(q, r), x) <==> Live(q, x)
    ensures forall x :: Held(Dequeue(q, r), x) <==> Held(q, x)
    ensures forall x :: x != r ==> (x in Dequeue(q, r).list <==> x in q.list)
  {
    RemoveReq(q.list, r);
    FsOfAdd(q.driver, r);
  }

  lemma DequeueAwaited(q: Q, r: Req)
    requires Placed(q) && Recorded(q) && InOrder(q) && Draining(q) && ProxiesHeld(q)
    requires r in q.list && r in q.started && Placed(Dequeue(q, r))
    ensures Awaited(Dequeue(q, r))
  {
    var q1 := Dequeue(q, r);
    if q.ord.started && !q.ord.drain {
      ProxyWaits(q);
      RemoveReq(q.list, r);
      assert BarProxy in q1.list && r in q1.driver;
      if IsFs(r) {
        assert r in FsOf(q1.driver);
      }
    }
  }

  lemma DrainingSorted(q: Q)
    ensures Draining(q) ==> Sorted(q.hist.begun, q.list)
  {
    hide Sorted;
  }

  lemma DequeueInv(q: Q, r: Req)
    requires Inv(q) && Enabled(q, SDequeue(r))
    ensures Inv(Dequeue(q, r))
  {
    hide Placed, ProxiesHeld, Coloured, BarriersListed, Numbered, Recorded, Draining, Awaited, Sorted, Live, Held,
      Remove;
    var q1 := Dequeue(q, r);
    DequeuePlaced(q, r);
    DrainingSorted(q);
    KeepFrame(q, q1);
    if q.mode.Drain? {
      SortedRemove(q.hist.begun, q.list, r);
      DrainingFrame(q, q1);
      DequeueAwaited(q, r);
    }
  }

  /** During a sequence, only requests of the barrier's own epoch have its colour among those
      that no later barrier precedes. */
  lemma ColourTells(q: Q, i: nat)
    requires Coloured(q) && BarriersListed(q) && Draining(q) && q.ord.started && i < |q.list|
    requires q.list[i].Rq? && q.list[i].fs
    requires forall j :: 0 <= j < i ==> ReqSeq(OrigColor(q), q.list[j]) != DONE
    ensures ReqSeq(OrigColor(q), q.list[i]) == DRAIN <==> q.list[i].epoch == q.hist.begun - 1
    ensures q.hist.begun - 1 <= q.list[i].epoch <= q.hist.begun
  {
    var x := q.list[i];
    assert Live(q, x);
    if x.epoch > q.hist.begun {
      NextBarrierFirst(q, i);
      assert false;
    }
  }

  /** The next barrier stands before every request that is newer than it. */
  lemma BarrierBefore(q: Q, i: nat)
    requires Coloured(q) && BarriersListed(q) && Sorted(q.hist.begun, q.list) && i < |q.list|
    requires q.list[i].Rq? && q.list[i].fs && q.list[i].epoch > q.hist.begun
    ensures q.hist.begun < |q.bars| && exists j :: 0 <= j < i && q.list[j] == q.bars[q.hist.begun]
  {
    assert Live(q, q.list[i]);
    var b := q.bars[q.hist.begun];
    var j :| 0 <= j < |q.list| && q.list[j] == b;
    assert Rank(q.hist.begun, b) == 8 * q.hist.begun + 4;
  }

  /** The colour is re-used only behind a request of the other colour. */
  lemma NextBarrierFirst(q: Q, i: nat)
    requires Coloured(q) && BarriersListed(q) && Draining(q) && q.ord.started && i < |q.list|
    requires q.list[i].Rq? && q.list[i].fs && q.list[i].epoch > q.hist.begun
    ensures exists j :: 0 <= j < i && ReqSeq(OrigColor(q), q.list[j]) == DONE
  {
    BarrierBefore(q, i);
    var j :| 0 <= j < i && q.list[j] == q.bars[q.hist.begun];
    assert q.list[j].color == Odd(q.hist.begun) && q.orig.color == Odd(q.hist.begun - 1);
    assert ReqSeq(OrigColor(q), q.list[j]) == DONE;
  }

  lemma RequeuePlaced(q: Q, r: Req)
    requires Placed(q) && r in q.driver
    ensures Placed(Requeue(q, r)) && !Barrier(r)
    ensures forall x :: Live(Requeue(q, r), x) <==> Live(q, x)
    ensures forall x :: Held(Requeue(q, r), x) <==> Held(q, x)
    ensures forall x :: x != r ==> (x in Requeue(q, r).list <==> x in q.list)
  {
    var k := if q.ord.started then Slot(OrigColor(q), q.list, ReqSeq(OrigColor(q), r)) else 0;
    InsertReq(q.list, k, r);
    FsOfRemove(q.driver, r);
  }

  /** Nothing is due before the drain. */
  lemma SlotOfDrain(color: bool, l: seq<Req>)
    ensures Slot(color, l, DRAIN) == 0
  {
  }

  /** A requeued file-system request is older than everything in the list. */
  lemma RequeuePlainSorted(q: Q, r: Req)
    requires ProxiesHeld(q) && Coloured(q) && BarriersListed(q) && Draining(q)
    requires r in q.driver && r in q.started && Plain(r)
    ensures Requeue(q, r).list == InsertAt(q.list, 0, r)
    ensures q.ord.started ==> ReqSeq(OrigColor(q), r) == DRAIN
    ensures Sorted(q.hist.begun, Requeue(q, r).list)
  {
    hide ProxiesHeld, Coloured, BarriersListed, Draining, Sorted, ReqSeq, Rank;
    OldestColour(q, r);
    SlotOfDrain(OrigColor(q), q.list);
    DrainingSorted(q);
    forall i | 0 <= i < |q.list| && Ranked(q.list[i])
      ensures Rank(q.hist.begun, r) <= Rank(q.hist.begun, q.list[i])
    {
      OldestRank(q, r, i);
    }
    SortedInsert(q.hist.begun, q.list, 0, r);
  }

  lemma OldestColour(q: Q, r: Req)
    requires Coloured(q) && BarriersListed(q) && Draining(q) && r in q.driver && r in q.started && Plain(r)
    ensures r.epoch == q.hist.begun - Ending(q) && (q.ord.started ==> ReqSeq(OrigColor(q), r) == DRAIN)
  {
    hide Sorted;
    assert Live(q, r);
  }

  lemma OldestRank(q: Q, r: Req, i: nat)
    requires ProxiesHeld(q) && BarriersListed(q) && Draining(q)
    requires Plain(r) && r.epoch == q.hist.begun - Ending(q) && i < |q.list| && Ranked(q.list[i])
    ensures Rank(q.hist.begun, r) <= Rank(q.hist.begun, q.list[i])
  {
    hide Sorted;
    assert Live(q, q.list[i]);
    assert !q.list[i].Rq? ==> Held(q, q.list[i]);
  }

  /** A requeued step goes behind what is due earlier and before what is due later. */
  lemma RequeueProxySorted(q: Q, p: Req)
    requires ProxiesHeld(q) && Coloured(q) && BarriersListed(q) && Draining(q)
    requires p in q.driver && p in q.started && p !in q.list && !p.Rq?
    ensures Sorted(q.hist.begun, Requeue(q, p).list)
  {
    hide ProxiesHeld, Coloured, BarriersListed, Draining, InsertAt, Sorted, Rank, CurSeq, ReqSeq;
    var k := Slot(OrigColor(q), q.list, ReqSeq(OrigColor(q), p));
    ProxyDue(q, p);
    forall i | 0 <= i < k ensures !Ranked(q.list[i]) {
      NothingDueEarlier(q, p, i);
    }
    forall i | k <= i < |q.list| && Ranked(q.list[i])
      ensures Rank(q.hist.begun, p) <= Rank(q.hist.begun, q.list[i])
    {
      RestIsLater(q, p, k, i);
    }
    SortedInsert(q.hist.begun, q.list, k, p);
  }

  lemma ProxyDue(q: Q, p: Req)
    requires ProxiesHeld(q) && Draining(q) && p in q.driver && p in q.started && !p.Rq?
    ensures q.ord.started && q.ord.drain && CurSeq(q.ord) == StepOf(p) == ReqSeq(OrigColor(q), p) > DRAIN
    ensures Sorted(q.hist.begun, q.list)
  {
    hide Sorted;
    assert Held(q, p);
  }

  /** Behind the place where the requeue stops nothing is due earlier. */
  lemma RestIsLater(q: Q, p: Req, k: nat, i: nat)
    requires ProxiesHeld(q) && BarriersListed(q) && Draining(q) && q.ord.started && q.ord.drain
    requires !p.Rq? && p !in q.list && CurSeq(q.ord) == StepOf(p)
    requires k <= i < |q.list| && Ranked(q.list[i])
    ensures Rank(q.hist.begun, p) <= Rank(q.hist.begun, q.list[i])
  {
    hide Sorted;
    assert Live(q, q.list[i]);
    assert !q.list[i].Rq? ==> Held(q, q.list[i]);
  }

  lemma NothingDueEarlier(q: Q, p: Req, i: nat)
    requires ProxiesHeld(q) && Coloured(q) && BarriersListed(q) && Draining(q)
    requires !p.Rq? && CurSeq(q.ord) == StepOf(p) && i < |q.list|
    requires forall j :: 0 <= j <= i ==> ReqSeq(OrigColor(q), q.list[j]) < ReqSeq(OrigColor(q), p)
    ensures Special(q.list[i])
  {
    assert Live(q, q.list[i]);
    if q.list[i].Rq? && q.list[i].fs {
      ColourTells(q, i);
      assert false;
    } else {
      assert Held(q, q.list[i]);
    }
  }

  lemma RequeueSorted(q: Q, r: Req)
    requires Placed(q) && ProxiesHeld(q) && Coloured(q) && BarriersListed(q) && Draining(q)
    requires r in q.driver
    ensures Sorted(q.hist.begun, Requeue(q, r).list)
    ensures q.ord.started && !q.ord.drain ==>
              Requeue(q, r).list[0] == r && ReqSeq(OrigColor(q), r) == DRAIN
  {
    if Plain(r) {
      hide ProxiesHeld, Coloured, BarriersListed, Draining, Sorted;
      RequeuePlainSorted(q, r);
    } else if Special(r) {
      RequeueSpecialSorted(q, r);
    } else {
      hide Coloured, BarriersListed, Sorted;
      RequeueProxySorted(q, r);
      assert Held(q, r);
    }
  }

  lemma RequeueSpecialSorted(q: Q, r: Req)
    requires Special(r) && Sorted(q.hist.begun, q.list)
    ensures Sorted(q.hist.begun, Requeue(q, r).list) && ReqSeq(OrigColor(q), r) == DRAIN
    ensures Requeue(q, r).list[0] == r
  {
    hide Sorted, Rank;
    SlotOfDrain(OrigColor(q), q.list);
    SortedInsert(q.hist.begun, q.list, 0, r);
  }

  lemma RequeueInv(q: Q, r: Req)
    requires Inv(q) && Enabled(q, SRequeue(r))
    ensures Inv(Requeue(q, r))
  {
    hide Placed, ProxiesHeld, Coloured, BarriersListed, Numbered, Recorded, Draining, Requeue, Sorted, Live, Held;
    var q1 := Requeue(q, r);
    RequeuePlaced(q, r);
    RequeueFields(q, r);
    KeepFrame(q, q1);
    if q.mode.Drain? {
      RequeueSorted(q, r);
      DrainingFrame(q, q1);
    }
  }

  lemma RequeueFields(q: Q, r: Req)
    requires r in q.driver
    ensures
      var q1 := Requeue(q, r);
      && q1 == q.(list := q1.list, driver := q1.driver, started := q1.started, soft := q1.soft, inFlight := q1.inFlight)
      && |q1.list| > 0 && (forall x :: x in q1.started ==> x in q.started)
  {
  }
}

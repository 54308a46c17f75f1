/** What every step of the barrier protocol keeps.  `Inv` says how requests are placed in the list
    around a running sequence, which colours and arrival numbers they have, which steps are still
    awaited, and that the history agrees with the bits of q->ordseq.  Each part is a predicate of
    its own, with a frame lemma for the steps that do not touch it.  This file also shows that
    the empty queue satisfies the invariant and that adding a request keeps it. */
module OrderedInvariant {
  import opened Lists
  import opened OrderedQueue

  predicate Odd(n: nat) { n % 2 == 1 }

  predicate BarrierOrder(l: seq<Req>) {
    forall i, j :: 0 <= i < j < |l| && Barrier(l[i]) && Barrier(l[j]) ==> l[i].epoch < l[j].epoch
  }

  function FsOf(s: set<Req>): set<Req> { set r | r in s && IsFs(r) }

  /** Where requests are. */
  ghost predicate Placed(q: Q) {
    && NoDup(q.list)
    && BarrierOrder(q.list)
    && (forall r :: r in q.list ==> r !in q.sched && r !in q.driver)
    && q.sched !! q.driver
    && q.driver <= q.started
    && (forall r :: r in q.started ==> (r in q.list || r in q.driver) && !Barrier(r))
    && (forall r :: r in q.sched ==> Plain(r) && r.epoch == |q.bars|)
    && (forall r :: r in q.list && !(r.Rq? && r.fs) ==> r in q.soft)
    && q.inFlight == |FsOf(q.driver)|
  }

  predicate Held(q: Q, p: Req) { p in q.list || p in q.driver }

  /** An embedded request is queued or at the driver exactly while its step is due. */
  ghost predicate ProxiesHeld(q: Q) {
    && (Held(q, PreFlush) <==> q.ord.started && !q.ord.pre)
    && (Held(q, BarProxy) <==> q.ord.started && !q.ord.bar)
    && (Held(q, PostFlush) <==> q.ord.started && !q.ord.post)
  }

  /** The colour of a file-system request is the parity of its epoch. */
  ghost predicate Coloured(q: Q) {
    && q.ordcolor == Odd(|q.bars|)
    && (forall e :: 0 <= e < |q.bars| ==>
          Barrier(q.bars[e]) && q.bars[e].epoch == e && q.bars[e].color == Odd(e))
    && (forall r :: Live(q, r) && r.Rq? && r.fs ==>
          r.color == Odd(r.epoch) && r.epoch <= |q.bars|)
  }

  /** Barriers still to be processed are in the list; the current one has left it. */
  ghost predicate BarriersListed(q: Q) {
    && q.hist.begun <= |q.bars|
    && (forall e :: q.hist.begun <= e < |q.bars| ==>
          Barrier(q.bars[e]) && q.bars[e].epoch == e && q.bars[e] in q.list)
    && (forall r :: r in q.list && Barrier(r) ==>
          q.hist.begun <= r.epoch < |q.bars| && r == q.bars[r.epoch])
    && (q.ord.started ==> q.hist.begun > 0 && q.orig == q.bars[q.hist.begun - 1] && CurSeq(q.ord) != DONE)
    && (!q.ord.started ==> q.ord == IDLE)
    && (q.ord.started && q.mode.Tag? ==> q.ord.drain)
    && (q.mode.NoOrder? ==> !q.ord.started)
  }

  /** Epochs agree with the order of arrival. */
  ghost predicate Numbered(q: Q) {
    && (forall e :: 0 <= e < |q.bars| ==> q.bars[e].Rq? && q.bars[e].id < q.nextId)
    && (forall e, f :: 0 <= e < f < |q.bars| ==> q.bars[e].id < q.bars[f].id)
    && (forall r :: Live(q, r) && r.Rq? ==> r.id < q.nextId)
    && (forall r, e :: Live(q, r) && Plain(r) && 0 <= e < |q.bars| ==>
          r.id != q.bars[e].id && (r.id < q.bars[e].id <==> r.epoch <= e))
  }

  predicate IsStep(s: nat) { s == DRAIN || s == PREFLUSH || s == BAR || s == POSTFLUSH }

  predicate Marked(q: Q, s: nat) { s in q.hist.trace || s in q.hist.skipped }

  function FirstError(errs: seq<int>): int {
    if errs == [] then 0 else if errs[0] != 0 then errs[0] else FirstError(errs[1..])
  }

  function Ending(q: Q): nat { if q.ord.started then 1 else 0 }

  /** A bit is set exactly when its step was completed or skipped at the start; when a sequence
      is over, every step was.  No step is completed twice. */
  ghost predicate StepsRecorded(q: Q) {
    && (q.ord.started ==>
          && (q.ord.drain <==> Marked(q, DRAIN))
          && (q.ord.pre <==> Marked(q, PREFLUSH))
          && (q.ord.bar <==> Marked(q, BAR))
          && (q.ord.post <==> Marked(q, POSTFLUSH)))
    && (!q.ord.started && q.hist.begun > 0 && !q.mode.NoOrder? ==>
          Marked(q, DRAIN) && Marked(q, PREFLUSH) && Marked(q, BAR) && Marked(q, POSTFLUSH))
    && (forall s :: s in q.hist.trace ==> IsStep(s) && s !in q.hist.skipped)
    && (forall i, j :: 0 <= i < j < |q.hist.trace| ==> q.hist.trace[i] != q.hist.trace[j])
    && BAR !in q.hist.skipped
    && q.orderr == FirstError(q.hist.errs)
  }

  /** Barriers are ended once each, in the order they were added, with the first error that was
      reported during their sequence. */
  ghost predicate EndsRecorded(q: Q) {
    && |q.hist.ended| + Ending(q) == q.hist.begun <= |q.bars|
    && (forall i :: 0 <= i < |q.hist.ended| ==> q.hist.ended[i].0 == q.bars[i])
    && (!q.ord.started && q.hist.begun > 0 ==>
          q.hist.ended[q.hist.begun - 1].1 == if q.mode.NoOrder? then EOPNOTSUPP else q.orderr)
  }

  ghost predicate Recorded(q: Q) { StepsRecorded(q) && EndsRecorded(q) }

  /** What holds in every mode. */
  ghost predicate Wf(q: Q) {
    Placed(q) && ProxiesHeld(q) && Coloured(q) && BarriersListed(q) && Numbered(q) && Recorded(q)
  }

  // ----- draining modes -----

  predicate Ranked(r: Req) { !r.Rq? || r.fs }

  /** The order in which requests must be processed, `begun` barriers having left the list. */
  function Rank(begun: nat, r: Req): int {
    match r
    case PreFlush => 8 * begun - 7
    case BarProxy => 8 * begun - 6
    case PostFlush => 8 * begun - 5
    case Rq(_, _, hard, _, _, epoch) => 8 * epoch + (if hard then 4 else 0)
  }

  predicate Sorted(begun: nat, l: seq<Req>) {
    forall i, j :: 0 <= i < j < |l| && Ranked(l[i]) && Ranked(l[j]) ==>
                     Rank(begun, l[i]) <= Rank(begun, l[j])
  }

  /** Requests older than the current barrier exist only while it drains; only they, then the
      steps of the sequence in turn, are with the driver. */
  ghost predicate Draining(q: Q) {
    && Sorted(q.hist.begun, q.list)
    && (forall r :: Live(q, r) && Plain(r) ==>
          || r.epoch >= q.hist.begun
          || (q.ord.started && !q.ord.drain && r.epoch == q.hist.begun - 1))
    && (forall r :: r in q.started && Plain(r) ==> r.epoch == q.hist.begun - Ending(q))
    && (PreFlush in q.started ==> CurSeq(q.ord) == PREFLUSH)
    && (BarProxy in q.started ==> CurSeq(q.ord) == BAR)
    && (PostFlush in q.started ==> CurSeq(q.ord) == POSTFLUSH)
  }

  ghost predicate InOrder(q: Q) {
    && (q.ord.started ==> forall i :: 0 <= i < |q.hist.trace| ==> q.hist.trace[i] < CurSeq(q.ord))
    && (forall i, j :: 0 <= i < j < |q.hist.trace| ==> q.hist.trace[i] < q.hist.trace[j])
  }

  /** While the queue drains, something is still due that will end the wait. */
  ghost predicate Awaited(q: Q) {
    q.ord.started && !q.ord.drain ==>
      && |q.list| > 0
      && (|| q.inFlight > 0
          || q.unput > 0
          || (exists r :: r in q.driver && Special(r))
          || ReqSeq(OrigColor(q), q.list[0]) == DRAIN)
  }

  ghost predicate Inv(q: Q) {
    Wf(q) && (q.mode.Drain? ==> Draining(q) && InOrder(q) && Awaited(q))
  }

  // ----- lists -----

  lemma RemoveReq(l: seq<Req>, r: Req)
    requires NoDup(l) && r in l
    ensures NoDup(Remove(l, r))
    ensures forall x :: x in Remove(l, r) <==> x in l && x != r
    ensures BarrierOrder(l) ==> BarrierOrder(Remove(l, r))
    ensures |Remove(l, r)| == |l| - 1
  {
    var k := Index(l, r);
    var m := Remove(l, r);
    forall i | 0 <= i < |m| ensures m[i] == l[if i < k then i else i + 1] {}
    forall x | x in l && x != r ensures x in m {
      var i :| 0 <= i < |l| && l[i] == x;
      assert m[if i < k then i else i - 1] == x;
    }
  }

  lemma SortedRemove(b: nat, l: seq<Req>, r: Req)
    requires r in l && Sorted(b, l)
    ensures Sorted(b, Remove(l, r))
  {
    var k := Index(l, r);
    var m := Remove(l, r);
    forall i | 0 <= i < |m| ensures m[i] == l[if i < k then i else i + 1] {}
  }

  lemma InsertReq(l: seq<Req>, k: nat, r: Req)
    requires k <= |l|
    ensures forall x :: x in InsertAt(l, k, r) <==> x in l || x == r
    ensures NoDup(l) && r !in l ==> NoDup(InsertAt(l, k, r))
    ensures BarrierOrder(l) && !Barrier(r) ==> BarrierOrder(InsertAt(l, k, r))
  {
    var m := InsertAt(l, k, r);
    forall i | 0 <= i < |m|
      ensures m[i] == if i < k then l[i] else if i == k then r else l[i - 1]
    {}
    forall x | x in l ensures x in m {
      var i :| 0 <= i < |l| && l[i] == x;
      assert m[if i < k then i else i + 1] == x;
    }
    assert m[k] == r;
  }

  lemma SortedInsert(b: nat, l: seq<Req>, k: nat, r: Req)
    requires k <= |l| && Sorted(b, l)
    requires forall i :: 0 <= i < k && Ranked(l[i]) ==> Ranked(r) ==> Rank(b, l[i]) <= Rank(b, r)
    requires forall i :: k <= i < |l| && Ranked(l[i]) ==> Ranked(r) ==> Rank(b, r) <= Rank(b, l[i])
    ensures Sorted(b, InsertAt(l, k, r))
  {
    var m := InsertAt(l, k, r);
    forall i | 0 <= i < |m|
      ensures m[i] == if i < k then l[i] else if i == k then r else l[i - 1]
    {}
  }

  lemma FirstErrorAppend(errs: seq<int>, e: int)
    ensures FirstError(errs + [e]) == if FirstError(errs) != 0 then FirstError(errs) else e
  {
    if errs == [] {
    } else {
      assert (errs + [e])[1..] == errs[1..] + [e];
      FirstErrorAppend(errs[1..], e);
    }
  }

  lemma FsOfAdd(s: set<Req>, r: Req)
    requires r !in s
    ensures |FsOf(s + {r})| == |FsOf(s)| + B2I(IsFs(r))
  {
    if IsFs(r) {
      assert FsOf(s + {r}) == FsOf(s) + {r};
    } else {
      assert FsOf(s + {r}) == FsOf(s);
    }
  }

  lemma FsOfRemove(s: set<Req>, r: Req)
    requires r in s
    ensures |FsOf(s - {r})| == |FsOf(s)| - B2I(IsFs(r))
  {
    FsOfAdd(s - {r}, r);
    assert s - {r} + {r} == s;
  }

  // ----- what follows when fewer requests are live -----

  ghost predicate FsShrinks(q: Q, q1: Q) {
    forall x :: Live(q1, x) && x.Rq? && x.fs ==> Live(q, x)
  }

  lemma ColouredFrame(q: Q, q1: Q)
    requires Coloured(q) && FsShrinks(q, q1)
    requires q1.bars == q.bars && q1.ordcolor == q.ordcolor
    ensures Coloured(q1)
  {
  }

  lemma NumberedFrame(q: Q, q1: Q)
    requires Numbered(q) && forall x :: Live(q1, x) && x.Rq? ==> Live(q, x)
    requires q1.bars == q.bars && q1.nextId == q.nextId
    ensures Numbered(q1)
  {
  }

  lemma BarriersFrame(q: Q, q1: Q)
    requires BarriersListed(q)
    requires q1.bars == q.bars && q1.hist.begun == q.hist.begun && q1.orig == q.orig && q1.mode == q.mode
    requires forall r :: Barrier(r) ==> (r in q1.list <==> r in q.list)
    requires q1.ord.started ==> q.ord.started && CurSeq(q1.ord) != DONE
    requires q1.ord.started && q.ord.drain ==> q1.ord.drain
    requires !q1.ord.started ==> q1.ord == IDLE
    ensures BarriersListed(q1)
  {
  }

  lemma RecordedFrame(q: Q, q1: Q)
    requires Recorded(q)
    requires q1.bars == q.bars && q1.ord == q.ord && q1.orderr == q.orderr && q1.hist == q.hist
    requires q1.mode == q.mode
    ensures Recorded(q1)
  {
  }

  lemma DrainingFrame(q: Q, q1: Q)
    requires Draining(q) && FsShrinks(q, q1) && Sorted(q1.hist.begun, q1.list)
    requires q1.hist.begun == q.hist.begun && q1.ord == q.ord
    requires forall r :: r in q1.started && !Special(r) ==> r in q.started
    ensures Draining(q1)
  {
    forall r | Live(q1, r) && Plain(r)
      ensures r.epoch >= q.hist.begun || (q.ord.started && !q.ord.drain && r.epoch == q.hist.begun - 1)
    {
      assert Live(q, r);
    }
  }

  // ----- the invariant at the start and after adding a request -----

  lemma InitInv(mode: Mode)
    ensures Inv(Init(mode))
  {
    hide Draining, InOrder, Awaited;
    InitDrains(mode);
    assert FsOf({}) == {};
  }

  lemma InitDrains(mode: Mode)
    ensures mode.Drain? ==> Draining(Init(mode)) && InOrder(Init(mode)) && Awaited(Init(mode))
  {
    assert FsOf({}) == {};
  }

  /** A new file-system request: where it goes and that it was not known before. */
  lemma AddFsLive(q: Q, hard: bool, empty: bool, sorted: bool)
    requires Numbered(q)
    ensures var r := NewRq(q, true, hard, empty); var q1 := AddFs(q, hard, empty, sorted);
            !Live(q, r) && forall x :: Live(q1, x) <==> Live(q, x) || x == r
  {
  }

  lemma AddFsPlaced(q: Q, hard: bool, empty: bool, sorted: bool)
    requires Placed(q) && Numbered(q) && BarriersListed(q)
    requires Enabled(q, SAddFs(hard, empty, sorted))
    ensures Placed(AddFs(q, hard, empty, sorted))
  {
    var r := NewRq(q, true, hard, empty);
    AddFsLive(q, hard, empty, sorted);
    if !(sorted && !hard) {
      assert AddFs(q, hard, empty, sorted).list == InsertAt(q.list, |q.list|, r);
      InsertReq(q.list, |q.list|, r);
    }
  }

  lemma AddFsColoured(q: Q, hard: bool, empty: bool, sorted: bool)
    requires Coloured(q) && Numbered(q)
    ensures Coloured(AddFs(q, hard, empty, sorted))
  {
    var r := NewRq(q, true, hard, empty);
    var q1 := AddFs(q, hard, empty, sorted);
    AddFsLive(q, hard, empty, sorted);
    forall x | Live(q1, x) && x.Rq? && x.fs ensures x.color == Odd(x.epoch) && x.epoch <= |q1.bars| {
      assert Live(q, x) || x == r;
    }
  }

  lemma AddFsNumbered(q: Q, hard: bool, empty: bool, sorted: bool)
    requires Coloured(q) && Numbered(q)
    ensures Numbered(AddFs(q, hard, empty, sorted))
  {
    hide Live, AddFs, Odd;
    var r := NewRq(q, true, hard, empty);
    var q1 := AddFs(q, hard, empty, sorted);
    AddFsLive(q, hard, empty, sorted);
    AddFsBars(q, hard, empty, sorted);
    forall x | Live(q1, x) && x.Rq? ensures x.id < q1.nextId {
      assert Live(q, x) || x == r;
    }
    forall x, e | Live(q1, x) && Plain(x) && 0 <= e < |q1.bars|
      ensures x.id != q1.bars[e].id && (x.id < q1.bars[e].id <==> x.epoch <= e)
    {
      assert Live(q, x) || x == r;
      assert e < |q.bars| ==> q1.bars[e] == q.bars[e];
    }
  }

  lemma AddFsBars(q: Q, hard: bool, empty: bool, sorted: bool)
    ensures
      var q1, r := AddFs(q, hard, empty, sorted), NewRq(q, true, hard, empty);
      && q1.bars == (if hard then q.bars + [r] else q.bars) && q1.nextId == q.nextId + 1
      && q1.hist == q.hist && q1.ord == q.ord && q1.started == q.started && q1.mode == q.mode
      && q1.list == if sorted && !hard then q.list else InsertAt(q.list, |q.list|, r)
  {
  }

  lemma AddFsListed(q: Q, hard: bool, empty: bool, sorted: bool)
    requires BarriersListed(q) && Recorded(q)
    ensures BarriersListed(AddFs(q, hard, empty, sorted))
    ensures Recorded(AddFs(q, hard, empty, sorted))
  {
    hide BarriersListed, Recorded;
    AddFsBarriers(q, hard, empty, sorted);
    AddFsRecorded(q, hard, empty, sorted);
  }

  lemma AddFsBarriers(q: Q, hard: bool, empty: bool, sorted: bool)
    requires BarriersListed(q)
    ensures BarriersListed(AddFs(q, hard, empty, sorted))
  {
  }

  lemma AddFsRecorded(q: Q, hard: bool, empty: bool, sorted: bool)
    requires Recorded(q)
    ensures Recorded(AddFs(q, hard, empty, sorted))
  {
  }

  lemma InListLive(q: Q, i: nat)
    requires i < |q.list|
    ensures Live(q, q.list[i])
  {
  }

  lemma AddFsDraining(q: Q, hard: bool, empty: bool, sorted: bool)
    requires Numbered(q) && Coloured(q) && BarriersListed(q) && Draining(q)
    ensures Draining(AddFs(q, hard, empty, sorted))
  {
    hide Live, AddFs, InsertAt, Sorted, Odd;
    var r := NewRq(q, true, hard, empty);
    AddFsLive(q, hard, empty, sorted);
    AddFsBars(q, hard, empty, sorted);
    if !(sorted && !hard) {
      forall i | 0 <= i < |q.list| && Ranked(q.list[i])
        ensures Rank(q.hist.begun, q.list[i]) <= Rank(q.hist.begun, r)
      {
        InListLive(q, i);
      }
      SortedInsert(q.hist.begun, q.list, |q.list|, r);
    }
  }

  lemma AddFsInv(q: Q, hard: bool, empty: bool, sorted: bool)
    requires Inv(q) && Enabled(q, SAddFs(hard, empty, sorted))
    ensures Inv(AddFs(q, hard, empty, sorted))
  {
    hide Placed, Coloured, BarriersListed, Numbered, StepsRecorded, EndsRecorded, Draining;
    AddFsPlaced(q, hard, empty, sorted);
    AddFsColoured(q, hard, empty, sorted);
    AddFsNumbered(q, hard, empty, sorted);
    AddFsListed(q, hard, empty, sorted);
    if q.mode.Drain? {
      AddFsDraining(q, hard, empty, sorted);
    }
  }

  /** __elv_add_request of such a request, but for what it does to the colour. */
  function SpecialAdded(q: Q, hard: bool, front: bool): Q { AddSpecial(q, hard, front).(ordcolor := q.ordcolor) }

  lemma AddSpecialLive(q: Q, hard: bool, front: bool)
    requires Numbered(q)
    ensures var r := NewRq(q, false, hard, false); var q1 := SpecialAdded(q, hard, front);
            !Live(q, r) && forall x :: Live(q1, x) <==> Live(q, x) || x == r
  {
  }

  lemma AddSpecialPlaced(q: Q, hard: bool, front: bool)
    requires Placed(q) && Numbered(q)
    ensures Placed(SpecialAdded(q, hard, front))
    ensures Sorted(q.hist.begun, q.list) ==> Sorted(q.hist.begun, SpecialAdded(q, hard, front).list)
  {
    var r := NewRq(q, false, hard, false);
    AddSpecialLive(q, hard, front);
    var k := if front then 0 else |q.list|;
    assert SpecialAdded(q, hard, front).list == InsertAt(q.list, k, r);
    InsertReq(q.list, k, r);
    if Sorted(q.hist.begun, q.list) {
      SortedInsert(q.hist.begun, q.list, k, r);
    }
  }

  lemma AddSpecialNumbered(q: Q, hard: bool, front: bool)
    requires Numbered(q)
    ensures Numbered(SpecialAdded(q, hard, front))
  {
    AddSpecialLive(q, hard, front);
  }

  lemma AddSpecialAwaited(q: Q, hard: bool, front: bool)
    requires Awaited(q)
    ensures Awaited(SpecialAdded(q, hard, front))
  {
  }

  lemma SpecialAddedInv(q: Q, hard: bool, front: bool)
    requires Inv(q)
    ensures Inv(SpecialAdded(q, hard, front))
  {
    hide Placed, ProxiesHeld, Coloured, BarriersListed, Numbered, Recorded, Draining, Awaited, SpecialAdded,
      FsShrinks;
    var q1 := SpecialAdded(q, hard, front);
    SpecialFields(q, hard, front);
    AddSpecialPlaced(q, hard, front);
    AddSpecialNumbered(q, hard, front);
    AddSpecialListed(q, hard, front);
    ColouredFrame(q, q1);
    RecordedFrame(q, q1);
    if q.mode.Drain? {
      AddSpecialDraining(q, hard, front);
      AddSpecialAwaited(q, hard, front);
    }
  }

  lemma SpecialFields(q: Q, hard: bool, front: bool)
    requires Numbered(q)
    ensures
      var q1, r := SpecialAdded(q, hard, front), NewRq(q, false, hard, false);
      && q1 == q.(list := q1.list, soft := q1.soft, nextId := q1.nextId)
      && q1.list == InsertAt(q.list, if front then 0 else |q.list|, r)
      && (forall x :: x in q1.list <==> x in q.list || x == r) && Special(r)
      && FsShrinks(q, q1)
  {
    hide Numbered;
    AddSpecialLive(q, hard, front);
  }

  lemma AddSpecialListed(q: Q, hard: bool, front: bool)
    requires ProxiesHeld(q) && BarriersListed(q) && Numbered(q)
    ensures ProxiesHeld(SpecialAdded(q, hard, front)) && BarriersListed(SpecialAdded(q, hard, front))
  {
    SpecialFields(q, hard, front);
    hide Numbered, SpecialAdded, FsShrinks;
    BarriersFrame(q, SpecialAdded(q, hard, front));
  }

  lemma AddSpecialDraining(q: Q, hard: bool, front: bool)
    requires Draining(q) && Numbered(q)
    ensures Draining(SpecialAdded(q, hard, front))
  {
    hide Numbered, SpecialAdded, FsShrinks, Sorted, Rank;
    SpecialFields(q, hard, front);
    SortedInsert(q.hist.begun, q.list, if front then 0 else |q.list|, NewRq(q, false, hard, false));
    DrainingFrame(q, SpecialAdded(q, hard, front));
  }

  lemma AddSpecialInv(q: Q, front: bool)
    requires Inv(q)
    ensures Inv(AddSpecial(q, false, front))
  {
    SpecialAddedInv(q, false, front);
    assert SpecialAdded(q, false, front) == AddSpecial(q, false, front);
  }
}

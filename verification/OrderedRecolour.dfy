/** The same queue with other colours.  `Recol` flips the colour of some requests, by their number, and
    `Seen` does so for a whole queue.  Every step of the protocol commutes with that, as long as the
    requests whose colours are compared are flipped alike or both not: the head of the list and the
    current barrier, and whatever a requeue looks at before it finds its place. */
module OrderedRecolour {
  import opened Lists
  import opened OrderedQueue
  import opened OrderedTheorems

  // ----- recolouring -----

  function Recol(f: nat -> bool, r: Req): Req { if r.Rq? then r.(color := r.color != f(r.id)) else r }

  function Each(f: nat -> bool, l: seq<Req>): (m: seq<Req>)
    ensures |m| == |l| && forall i :: 0 <= i < |l| ==> m[i] == Recol(f, l[i])
  {
    seq(|l|, i requires 0 <= i < |l| => Recol(f, l[i]))
  }

  ghost function All(f: nat -> bool, s: set<Req>): set<Req> { set x | x in s :: Recol(f, x) }

  function Ended(f: nat -> bool, e: seq<(Req, int)>): (m: seq<(Req, int)>)
    ensures |m| == |e| && forall i :: 0 <= i < |e| ==> m[i] == (Recol(f, e[i].0), e[i].1)
  {
    seq(|e|, i requires 0 <= i < |e| => (Recol(f, e[i].0), e[i].1))
  }

  /** The queue with its requests recoloured; new requests are flipped when `c` is. */
  ghost function Seen(f: nat -> bool, c: bool, q: Q): Q {
    q.(list := Each(f, q.list), sched := All(f, q.sched), driver := All(f, q.driver),
       started := All(f, q.started), soft := All(f, q.soft), ordcolor := q.ordcolor != c,
       orig := Recol(f, q.orig), bars := Each(f, q.bars),
       hist := q.hist.(ended := Ended(f, q.hist.ended)))
  }

  function SeenStep(f: nat -> bool, s: Step): Step {
    match s
    case SDispatch(r, pos) => SDispatch(Recol(f, r), pos)
    case SDequeue(r) => SDequeue(Recol(f, r))
    case SRequeue(r) => SRequeue(Recol(f, r))
    case SComplete(r, err, put) => SComplete(Recol(f, r), err, put)
    case _ => s
  }

  lemma Twice(f: nat -> bool, r: Req)
    ensures Recol(f, Recol(f, r)) == r
  {
  }

  lemma AllHas(f: nat -> bool, s: set<Req>)
    ensures forall y :: y in All(f, s) <==> Recol(f, y) in s
    ensures forall y :: y in s <==> Recol(f, y) in All(f, s)
  {
    forall y ensures Recol(f, Recol(f, y)) == y { Twice(f, y); }
  }

  lemma EachHas(f: nat -> bool, l: seq<Req>)
    ensures forall y :: y in Each(f, l) <==> Recol(f, y) in l
    ensures forall y :: y in l <==> Recol(f, y) in Each(f, l)
  {
    forall y ensures Recol(f, Recol(f, y)) == y { Twice(f, y); }
    forall y | y in l ensures Recol(f, y) in Each(f, l) {
      var i :| 0 <= i < |l| && l[i] == y;
      assert Each(f, l)[i] == Recol(f, y);
    }
    forall y | y in Each(f, l) ensures Recol(f, y) in l {
      var i :| 0 <= i < |l| && Each(f, l)[i] == y;
      assert l[i] == Recol(f, y);
    }
  }

  lemma AllAdd(f: nat -> bool, s: set<Req>, r: Req)
    ensures All(f, s + {r}) == All(f, s) + {Recol(f, r)}
  {
  }

  lemma AllDrop(f: nat -> bool, s: set<Req>, r: Req)
    ensures All(f, s - {r}) == All(f, s) - {Recol(f, r)}
  {
    hide Recol;
    AllHas(f, s);
    AllHas(f, s - {r});
    Twice(f, r);
    forall y ensures y in All(f, s - {r}) <==> y in All(f, s) && y != Recol(f, r) {
      Twice(f, y);
    }
  }

  lemma AllUnion(f: nat -> bool, s: set<Req>, t: set<Req>)
    ensures All(f, s + t) == All(f, s) + All(f, t)
  {
  }

  lemma AllMinus(f: nat -> bool, s: set<Req>, t: set<Req>)
    ensures All(f, s - t) == All(f, s) - All(f, t)
  {
    hide Recol, All;
    AllHas(f, s);
    AllHas(f, t);
    AllHas(f, s - t);
  }

  lemma EachConcat(f: nat -> bool, a: seq<Req>, b: seq<Req>)
    ensures Each(f, a + b) == Each(f, a) + Each(f, b)
  {
  }

  lemma EachOne(f: nat -> bool, r: Req)
    ensures Each(f, [r]) == [Recol(f, r)]
  {
  }

  lemma EachTail(f: nat -> bool, l: seq<Req>, k: nat)
    requires k <= |l|
    ensures Each(f, l[k..]) == Each(f, l)[k..] && Each(f, l[..k]) == Each(f, l)[..k]
  {
  }

  lemma {:induction false} EachIndex(f: nat -> bool, l: seq<Req>, r: Req)
    requires r in l
    ensures Recol(f, r) in Each(f, l) && Index(Each(f, l), Recol(f, r)) == Index(l, r)
  {
    hide Recol, Each, Index;
    EachHas(f, l);
    EachTail(f, l, 1);
    Twice(f, r);
    Twice(f, l[0]);
    IndexStep(l, r);
    IndexStep(Each(f, l), Recol(f, r));
    if l[0] != r {
      EachIndex(f, l[1..], r);
    }
  }

  lemma IndexStep(l: seq<Req>, r: Req)
    requires r in l
    ensures if l[0] == r then Index(l, r) == 0 else r in l[1..] && Index(l, r) == 1 + Index(l[1..], r)
  {
  }

  lemma EachRemove(f: nat -> bool, l: seq<Req>, r: Req)
    requires r in l
    ensures Recol(f, r) in Each(f, l) && Remove(Each(f, l), Recol(f, r)) == Each(f, Remove(l, r))
  {
    hide Recol, Index;
    EachIndex(f, l, r);
  }

  lemma EachInsert(f: nat -> bool, l: seq<Req>, k: nat, r: Req)
    requires k <= |l|
    ensures InsertAt(Each(f, l), k, Recol(f, r)) == Each(f, InsertAt(l, k, r))
  {
    hide Recol;
  }

  // ----- what does not depend on the colour -----

  lemma SameKind(f: nat -> bool, r: Req)
    ensures IsFs(Recol(f, r)) == IsFs(r) && IsHard(Recol(f, r)) == IsHard(r)
    ensures Plain(Recol(f, r)) == Plain(r) && Barrier(Recol(f, r)) == Barrier(r)
    ensures Special(Recol(f, r)) == Special(r) && OfFs(Recol(f, r)) == OfFs(r)
    ensures Recol(f, r).Rq? == r.Rq? && StepOf(Recol(f, r)) == StepOf(r) && Arrived(Recol(f, r)) == Arrived(r)
    ensures !r.Rq? ==> Recol(f, r) == r
  {
  }

  lemma SameAccount(f: nat -> bool, c: bool, q: Q, r: Req)
    ensures Accounted(Seen(f, c, q), Recol(f, r)) == Accounted(q, r)
  {
    hide Recol, All, IsFs;
    AllHas(f, q.started);
    SameKind(f, r);
  }

  /** The colours of `r` and of the current barrier compare as before. */
  predicate Matches(f: nat -> bool, q: Q, r: Req) {
    OfFs(r) && q.orig.Rq? ==> f(r.id) == f(q.orig.id)
  }

  lemma SameClass(f: nat -> bool, c: bool, q: Q, r: Req)
    requires Matches(f, q, r) && (q.orig.Rq? || !OfFs(r))
    ensures ReqSeq(OrigColor(Seen(f, c, q)), Recol(f, r)) == ReqSeq(OrigColor(q), r)
  {
  }

  // ----- operations -----

  lemma DispatchSeen(f: nat -> bool, c: bool, q: Q, r: Req, pos: nat)
    requires pos <= |q.list|
    ensures Dispatch(Seen(f, c, q), Recol(f, r), pos) == Seen(f, c, Dispatch(q, r, pos))
    ensures DispatchSlot(q, pos) == DispatchSlot(Seen(f, c, q), pos)
  {
    hide Recol, All, Stops, InsertAt, Each;
    AllDrop(f, q.sched, r);
    EachInsert(f, q.list, pos, r);
    forall i | pos <= i < |q.list| ensures Stops(Seen(f, c, q), Each(f, q.list)[i]) == Stops(q, q.list[i]) {
      SameStops(f, c, q, q.list[i]);
    }
  }

  lemma SameStops(f: nat -> bool, c: bool, q: Q, r: Req)
    ensures Stops(Seen(f, c, q), Recol(f, r)) == Stops(q, r)
  {
    hide Recol, All;
    AllHas(f, q.soft);
    AllHas(f, q.started);
    SameKind(f, r);
  }

  lemma DequeueSeen(f: nat -> bool, c: bool, q: Q, r: Req)
    requires r in q.list
    ensures Recol(f, r) in Seen(f, c, q).list
    ensures Dequeue(Seen(f, c, q), Recol(f, r)) == Seen(f, c, Dequeue(q, r))
  {
    hide Recol, All, Accounted, Remove;
    EachRemove(f, q.list, r);
    AllAdd(f, q.driver, r);
    SameAccount(f, c, q, r);
  }

  lemma CompleteSeqSeen(f: nat -> bool, c: bool, q: Q, step: nat, err: int)
    ensures CompleteSeq(Seen(f, c, q), step, err) == Seen(f, c, CompleteSeq(q, step, err))
  {
    hide Recol, All;
    var e := q.hist.ended;
    var q1 := NoteStep(q, step, err);
    assert NoteStep(Seen(f, c, q), step, err) == Seen(f, c, q1);
    assert Ended(f, e + [(q1.orig, q1.orderr)]) == Ended(f, e) + [(Recol(f, q1.orig), q1.orderr)];
    hide NoteStep;
  }

  /** What the end of the drain depends on. */
  predicate HeadMatches(f: nat -> bool, q: Q) {
    q.ord.started && |q.list| > 0 ==> q.orig.Rq? && Matches(f, q, q.list[0])
  }

  lemma DrainCheckSeen(f: nat -> bool, c: bool, q: Q)
    requires CurSeq(q.ord) == DRAIN ==> HeadMatches(f, q)
    ensures DrainCheck(Seen(f, c, q)) == Seen(f, c, DrainCheck(q))
  {
    hide Recol, All, ReqSeq, CompleteSeq, CurSeq;
    if q.ord.started && CurSeq(q.ord) == DRAIN && |q.list| > 0 {
      SameClass(f, c, q, q.list[0]);
    }
    CompleteSeqSeen(f, c, q, DRAIN, 0);
  }

  lemma CompletedSeen(f: nat -> bool, c: bool, q: Q, r: Req)
    requires CurSeq(q.ord) == DRAIN ==> HeadMatches(f, q)
    ensures Completed(Seen(f, c, q), Recol(f, r)) == Seen(f, c, Completed(q, r))
  {
    hide Recol, All, Accounted, DrainCheck;
    var q1 := q.(inFlight := q.inFlight - B2I(Accounted(q, r)), driver := q.driver - {r},
                 started := q.started - {r});
    AllDrop(f, q.driver, r);
    AllDrop(f, q.started, r);
    SameAccount(f, c, q, r);
    DrainCheckSeen(f, c, q1);
  }

  /** The end of a request that is no longer in the list. */
  function Finished(q: Q, r: Req, err: int, put: bool): Q {
    if !r.Rq? then CompleteSeq(Completed(q, r), StepOf(r), err)
    else if r.fs || put then Completed(q, r)
    else q.(driver := q.driver - {r}, started := q.started - {r}, unput := q.unput + 1)
  }

  lemma CompleteIs(q: Q, r: Req, err: int, put: bool)
    ensures Complete(q, r, err, put) == Finished(if r in q.list then Dequeue(q, r) else q, r, err, put)
  {
    hide Dequeue, Completed, CompleteSeq;
  }

  lemma FinishedSeen(f: nat -> bool, c: bool, q: Q, r: Req, err: int, put: bool)
    requires CurSeq(q.ord) == DRAIN ==> HeadMatches(f, q)
    ensures Finished(Seen(f, c, q), Recol(f, r), err, put) == Seen(f, c, Finished(q, r, err, put))
  {
    hide All, Completed, CompleteSeq;
    CompletedSeen(f, c, q, r);
    CompleteSeqSeen(f, c, Completed(q, r), StepOf(r), err);
    AllDrop(f, q.driver, r);
    AllDrop(f, q.started, r);
    SameKind(f, r);
  }

  lemma CompleteSeen(f: nat -> bool, c: bool, q: Q, r: Req, err: int, put: bool)
    requires var q1 := if r in q.list then Dequeue(q, r) else q; CurSeq(q.ord) == DRAIN ==> HeadMatches(f, q1)
    ensures Complete(Seen(f, c, q), Recol(f, r), err, put) == Seen(f, c, Complete(q, r, err, put))
  {
    var q1 := if r in q.list then Dequeue(q, r) else q;
    EachHas(f, q.list);
    SeenList(f, c, q);
    assert q1.ord == q.ord;
    CompleteIs(q, r, err, put);
    CompleteIs(Seen(f, c, q), Recol(f, r), err, put);
    hide Seen, Recol, Finished, Dequeue, Complete, HeadMatches;
    if r in q.list {
      DequeueSeen(f, c, q, r);
    }
    FinishedSeen(f, c, q1, r, err, put);
  }

  lemma SeenList(f: nat -> bool, c: bool, q: Q)
    ensures Seen(f, c, q).list == Each(f, q.list)
  {
  }

  lemma LatePutSeen(f: nat -> bool, c: bool, q: Q)
    requires q.unput > 0 && (CurSeq(q.ord) == DRAIN ==> HeadMatches(f, q))
    ensures Seen(f, c, q).unput == q.unput && LatePut(Seen(f, c, q)) == Seen(f, c, LatePut(q))
  {
    hide DrainCheck, Recol, All;
    DrainCheckSeen(f, c, q.(unput := q.unput - 1));
  }

  lemma PartialBarSeen(f: nat -> bool, c: bool, q: Q, err: int)
    ensures PartialBar(Seen(f, c, q), err) == Seen(f, c, PartialBar(q, err))
  {
    hide Recol, All;
  }

  // ----- adding -----

  lemma NewSeen(f: nat -> bool, c: bool, q: Q, fs: bool, hard: bool, empty: bool)
    requires f(q.nextId) == c
    ensures NewRq(Seen(f, c, q), fs, hard, empty) == Recol(f, NewRq(q, fs, hard, empty))
  {
  }

  lemma AppendFsSeen(f: nat -> bool, c: bool, q: Q, r: Req, hard: bool)
    ensures AppendFs(Seen(f, c, q), Recol(f, r), hard) == Seen(f, c, AppendFs(q, r, hard))
  {
    hide Recol, All;
    EachConcat(f, q.list, [r]);
    EachConcat(f, q.bars, [r]);
    EachOne(f, r);
    AllAdd(f, q.soft, r);
  }

  lemma AddFsSeen(f: nat -> bool, c: bool, q: Q, hard: bool, empty: bool, sorted: bool)
    requires f(q.nextId) == c
    ensures AddFs(Seen(f, c, q), hard, empty, sorted) == Seen(f, c, AddFs(q, hard, empty, sorted))
  {
    hide Recol, All, NewRq, AppendFs;
    var r := NewRq(q, true, hard, empty);
    NewSeen(f, c, q, true, hard, empty);
    AppendFsSeen(f, c, q, r, hard);
    AllAdd(f, q.sched, r);
  }

  lemma AddSpecialSeen(f: nat -> bool, c: bool, q: Q, front: bool)
    requires f(q.nextId) == c
    ensures AddSpecial(Seen(f, c, q), false, front) == Seen(f, c, AddSpecial(q, false, front))
  {
    hide Recol, All, NewRq;
    var r := NewRq(q, false, false, false);
    NewSeen(f, c, q, false, false, false);
    EachConcat(f, q.list, [r]);
    EachConcat(f, [r], q.list);
    EachOne(f, r);
    AllAdd(f, q.soft, r);
  }

  // ----- fetching -----

  lemma AllFixed(f: nat -> bool, s: set<Req>)
    requires forall x :: x in s ==> !x.Rq?
    ensures All(f, s) == s
  {
  }

  lemma NoRq(mode: Mode, empty: bool)
    requires !mode.NoOrder?
    ensures forall x :: x in Proxies(mode, empty) ==> !x.Rq?
  {
  }

  lemma ProxiesSeen(f: nat -> bool, mode: Mode, empty: bool)
    requires !mode.NoOrder?
    ensures Each(f, Proxies(mode, empty)) == Proxies(mode, empty)
    ensures All(f, set x | x in Proxies(mode, empty)) == (set x | x in Proxies(mode, empty))
  {
    hide Proxies, All;
    var p := Proxies(mode, empty);
    NoRq(mode, empty);
    assert forall i :: 0 <= i < |p| ==> p[i] in p;
    AllFixed(f, set x | x in p);
  }

  lemma TakeBarrierSeen(f: nat -> bool, c: bool, q: Q)
    requires |q.list| > 0 && q.list[0].Rq?
    ensures TakeBarrier(Seen(f, c, q)) == Seen(f, c, TakeBarrier(q))
  {
    hide Recol, All, Accounted;
    EachTail(f, q.list, 1);
    SameAccount(f, c, q, q.list[0]);
  }

  lemma StackSeen(f: nat -> bool, c: bool, q: Q)
    requires q.orig.Rq? && !q.mode.NoOrder?
    ensures Recol(f, q.orig).Rq? && StackSequence(Seen(f, c, q)) == Seen(f, c, StackSequence(q))
  {
    hide Proxies, All, Ended, Each;
    var p := Proxies(q.mode, q.orig.empty);
    ProxiesSeen(f, q.mode, q.orig.empty);
    EachConcat(f, p, q.list);
    AllUnion(f, q.soft, set x | x in p);
    AllMinus(f, q.started, set x | x in p);
    assert Recol(f, q.orig).empty == q.orig.empty;
    hide Recol, All, Proxies;
  }

  lemma StartSeen(f: nat -> bool, c: bool, q: Q)
    requires |q.list| > 0 && q.list[0].Rq? && !q.mode.NoOrder?
    ensures Each(f, q.list)[0].Rq? && StartOrdered(Seen(f, c, q)) == Seen(f, c, StartOrdered(q))
  {
    TakeBarrierSeen(f, c, q);
    var q1 := TakeBarrier(q);
    assert q1.orig.Rq? && q1.mode == q.mode;
    StackSeen(f, c, q1);
    hide TakeBarrier, StackSequence, All;
  }

  lemma RefuseSeen(f: nat -> bool, c: bool, q: Q)
    requires |q.list| > 0
    ensures RefuseBarrier(Seen(f, c, q)) == Seen(f, c, RefuseBarrier(q))
  {
    hide Recol, All;
    EachTail(f, q.list, 1);
    var h, e := q.list[0], q.hist.ended;
    assert Ended(f, e + [(h, EOPNOTSUPP)]) == Ended(f, e) + [(Recol(f, h), EOPNOTSUPP)];
  }

  function SeenVerdict(f: nat -> bool, v: Verdict): Verdict { if v.Pass? then Pass(Recol(f, v.r)) else v }

  function SeenOutcome(f: nat -> bool, o: Outcome): Outcome { if o.Give? then Give(Recol(f, o.r)) else o }

  lemma StartsWithStep(q: Q)
    requires |q.list| > 0 && q.list[0].Rq? && !q.mode.NoOrder?
    ensures |StartOrdered(q).list| > 0
  {
  }

  lemma DoOrderedSeen(f: nat -> bool, c: bool, q: Q)
    requires |q.list| > 0 && HeadMatches(f, q)
    ensures DoOrdered(Seen(f, c, q)) == (Seen(f, c, DoOrdered(q).0), SeenVerdict(f, DoOrdered(q).1))
  {
    hide Recol, All, StartOrdered, RefuseBarrier, ReqSeq, CurSeq, Special, Barrier, IsFs, IsHard, Ended, Matches;
    var h := q.list[0];
    SameKind(f, h);
    RefuseSeen(f, c, q);
    if h.Rq? && !q.mode.NoOrder? {
      StartSeen(f, c, q);
      StartsWithStep(q);
      SameKind(f, StartOrdered(q).list[0]);
    }
    if q.ord.started {
      SameClass(f, c, q, h);
    }
  }

  lemma SameEmpty(f: nat -> bool, r: Req)
    ensures Recol(f, r).Rq? == r.Rq? && (r.Rq? ==> Recol(f, r).empty == r.empty)
  {
  }

  lemma NextSeen(f: nat -> bool, c: bool, q: Q)
    requires |q.list| > 0 && HeadMatches(f, q)
    requires DoOrdered(q).1 == Pass(BarProxy) ==> CurSeq(DoOrdered(q).0.ord) != DRAIN
    ensures NextTurn(Seen(f, c, q)) == (Seen(f, c, NextTurn(q).0), SeenOutcome(f, NextTurn(q).1))
  {
    hide Recol, All, DoOrdered, Complete, HeadMatches, CurSeq;
    DoOrderedSeen(f, c, q);
    var (q1, v) := DoOrdered(q);
    if v.Pass? {
      SameKind(f, v.r);
      AllAdd(f, q1.started, v.r);
      SameEmpty(f, q1.orig);
      if v.r == BarProxy {
        CompleteSeen(f, c, q1, BarProxy, 0, true);
      }
    }
  }

  // ----- requeueing -----

  /** The scan for a place sees the same up to where it stops. */
  lemma {:induction false} SlotSame(c1: bool, l: seq<Req>, c2: bool, m: seq<Req>, s: nat)
    requires |m| == |l|
    requires forall i :: 0 <= i <= Slot(c1, l, s) && i < |l| ==> ReqSeq(c1, l[i]) == ReqSeq(c2, m[i])
    ensures Slot(c2, m, s) == Slot(c1, l, s)
    decreases |l|
  {
    hide ReqSeq;
    if l != [] && ReqSeq(c1, l[0]) < s {
      assert Slot(c1, l, s) == 1 + Slot(c1, l[1..], s);
      SlotSame(c1, l[1..], c2, m[1..], s);
    }
  }

  lemma RequeueSlotSeen(f: nat -> bool, c: bool, q: Q, r: Req)
    requires q.ord.started ==> q.orig.Rq? && Matches(f, q, r)
    requires q.ord.started ==> forall i :: 0 <= i <= RequeueSlot(q, r) && i < |q.list| ==> Matches(f, q, q.list[i])
    ensures RequeueSlot(Seen(f, c, q), Recol(f, r)) == RequeueSlot(q, r)
  {
    hide Recol, All, Slot, ReqSeq;
    if q.ord.started {
      SameClass(f, c, q, r);
      forall i | 0 <= i <= RequeueSlot(q, r) && i < |q.list|
        ensures ReqSeq(OrigColor(q), q.list[i]) == ReqSeq(OrigColor(Seen(f, c, q)), Each(f, q.list)[i])
      {
        SameClass(f, c, q, q.list[i]);
      }
      SlotSame(OrigColor(q), q.list, OrigColor(Seen(f, c, q)), Each(f, q.list), ReqSeq(OrigColor(q), r));
    }
  }

  lemma RequeueAtSeen(f: nat -> bool, c: bool, q: Q, r: Req, k: nat)
    requires k <= |q.list|
    ensures RequeueAt(Seen(f, c, q), Recol(f, r), k) == Seen(f, c, RequeueAt(q, r, k))
  {
    hide Recol, All, Accounted, InsertAt;
    EachInsert(f, q.list, k, r);
    AllDrop(f, q.driver, r);
    AllDrop(f, q.started, r);
    AllAdd(f, q.soft, r);
    SameAccount(f, c, q, r);
  }

  lemma RequeueSeen(f: nat -> bool, c: bool, q: Q, r: Req)
    requires q.ord.started ==> q.orig.Rq? && Matches(f, q, r)
    requires q.ord.started ==> forall i :: 0 <= i <= RequeueSlot(q, r) && i < |q.list| ==> Matches(f, q, q.list[i])
    ensures Requeue(Seen(f, c, q), Recol(f, r)) == Seen(f, c, Requeue(q, r))
  {
    hide Seen, Recol, RequeueAt, RequeueSlot;
    RequeueSlotSeen(f, c, q, r);
    RequeueAtSeen(f, c, q, r, RequeueSlot(q, r));
  }
}

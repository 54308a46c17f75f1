/** Expired reads leave, too. */
module DeadlineReads {
  import opened Options
  import opened Lists
  import opened Deadline
  import opened DeadlineSteps
  import opened DeadlineTheorems

  // ----- what a new batch starts with -----

  /** Some request of the direction has expired. */
  predicate SomeExpired(w: World, d: Dir) {
    exists x :: x in Get(w.dd, d).fifo && x in w.dd.expires && w.now > w.dd.expires[x]
  }

  /** A new batch starts with the request of the earliest expiry when some request of the direction has
      expired, or nothing is next; otherwise it goes on with next_rq. */
  lemma {:induction false} PickIs(tun: Tunables, t0: int, run: seq<Op>, w: World, d: Dir)
    requires Runs(Start(tun, t0), run, w) && Get(w.dd, d).fifo != []
    ensures Get(w.dd, d).fifo[0] in w.dd.expires
    ensures
      var p := Pick(w.dd, d, w.now);
      if SomeExpired(w, d) || Get(w.dd, d).next == None then
        && p == Get(w.dd, d).fifo[0] && p in w.dd.expires
        && forall x :: x in Get(w.dd, d).fifo && x in w.dd.expires ==> w.dd.expires[p] <= w.dd.expires[x]
      else
        Get(w.dd, d).next == Some(p)
  {
    HeadDecides(tun, t0, run, w, d);
    RunSound(Start(tun, t0), run, w);
    hide Runs, Start, CheckFifo, Get;
    SoundAgrees(w);
    hide Agree, Timely;
    FifoOrdered(w.dd, d);
    hide ByExpiry;
    forall x | x in Get(w.dd, d).fifo ensures w.dd.expires[Get(w.dd, d).fifo[0]] <= w.dd.expires[x] {
      FirstExpires(w.dd.expires, Get(w.dd, d).fifo, x);
    }
  }

  lemma NewBatchTakes(dd: DD, now: int, d: Dir)
    requires Agree(dd) && MakePlan(dd) == NewBatch(d)
    ensures Get(dd, d).fifo != [] && Get(dd, d).fifo[0] in dd.expires
    ensures
      var dd1 := Dispatch(dd, now);
      && dd1.dispatched == dd.dispatched + [Pick(dd, d, now)] && dd1.batching == 1
      && Get(dd1, Other(d)).fifo == Get(dd, Other(d)).fifo
  {
  }

  // ----- reads and writes with their roles exchanged -----

  function Swap(dd: DD): DD {
    dd.(rd := dd.wr, wr := dd.rd,
        tun := dd.tun.(readExpire := dd.tun.writeExpire, writeExpire := dd.tun.readExpire))
  }

  function Swapped(w: World): World { w.(dd := Swap(w.dd)) }

  function SwapOp(op: Op): Op {
    match op
    case Add(d, r, s) => Add(Other(d), r, s)
    case Front(d, r, s) => Front(Other(d), r, s)
    case Merge(d, r, n) => Merge(Other(d), r, n)
    case _ => op
  }

  lemma SwapSides(dd: DD, d: Dir)
    ensures Get(Swap(dd), Other(d)) == Get(dd, d) && Other(Other(d)) == d
    ensures Swap(dd).sector == dd.sector && Swap(dd).expires == dd.expires
    ensures forall s: Side :: Put(Swap(dd), Other(d), s) == Swap(Put(dd, d, s))
  {
  }

  lemma SwapAgree(w: World)
    requires Sound(w)
    ensures Sound(Swapped(w))
  {
    hide SideOk;
  }

  lemma SwapMove(dd: DD, d: Dir, r: nat)
    requires r in Get(dd, d).sort && r in Get(dd, d).fifo
    ensures Get(Swap(dd), Other(d)) == Get(dd, d)
    ensures MoveRequest(Swap(dd), Other(d), r) == Swap(MoveRequest(dd, d, r))
  {
    hide RemoveFrom, Latter;
  }

  lemma SwapClear(dd: DD, d: Dir, s: nat)
    requires forall x :: x in Get(dd, d).sort ==> x in dd.sector && x in Get(dd, d).fifo
    ensures Get(Swap(dd), Other(d)) == Get(dd, d)
    ensures ClearSector(Swap(dd), Other(d), s) == Swap(ClearSector(dd, d, s))
  {
    hide MoveRequest, Find;
    SwapSides(dd, d);
    var alias := Find(dd.sector, Get(dd, d).sort, s);
    if alias.Some? { SwapMove(dd, d, alias.value); }
  }

  lemma SwapInsert(dd: DD, d: Dir, r: nat)
    requires r in dd.sector && forall x :: x in Get(dd, d).sort ==> x in dd.sector
    ensures Get(Swap(dd), Other(d)) == Get(dd, d)
    ensures Insert(Swap(dd), Other(d), r) == Swap(Insert(dd, d, r))
  {
    hide Slot, InsertAt;
  }

  lemma SwapJoin(dd: DD, d: Dir, r: nat, s: nat, now: int)
    ensures JoinFifo(Swap(dd), Other(d), r, s, now) == Swap(JoinFifo(dd, d, r, s, now))
  {
  }

  lemma SwapAdd(dd: DD, d: Dir, r: nat, s: nat, now: int)
    requires Agree(dd) && Agree(Swap(dd))
    ensures AddRequest(Swap(dd), Other(d), r, s, now) == Swap(AddRequest(dd, d, r, s, now))
  {
    hide SideOk, ClearSector, JoinFifo, Insert;
    Queued(dd, d);
    SwapSides(dd, d);
    ClearSectorSorted(dd, d, s);
    SwapClear(dd, d, s);
    SwapJoin(ClearSector(dd, d, s), d, r, s, now);
    Joined(ClearSector(dd, d, s), d, r, s, now);
    SwapInsert(JoinFifo(ClearSector(dd, d, s), d, r, s, now), d, r);
  }

  lemma Queued(dd: DD, d: Dir)
    requires Agree(dd)
    ensures forall x :: x in Get(dd, d).sort <==> x in Get(dd, d).fifo
    ensures forall x :: x in Get(dd, d).fifo ==> x in dd.sector && x in dd.expires
    ensures NoDup(Get(dd, d).sort) && NoDup(Get(dd, d).fifo)
  {
    hide ByExpiry, Ascending, NoDup;
  }

  lemma Joined(dd: DD, d: Dir, r: nat, s: nat, now: int)
    ensures JoinFifo(dd, d, r, s, now).sector == dd.sector[r := s]
    ensures Get(JoinFifo(dd, d, r, s, now), d).sort == Get(dd, d).sort
  {
  }

  lemma SwapFront(dd: DD, d: Dir, r: nat, s: nat)
    requires Agree(dd) && Agree(Swap(dd)) && r in Get(dd, d).sort
    ensures Get(Swap(dd), Other(d)) == Get(dd, d)
    ensures FrontMerged(Swap(dd), Other(d), r, s) == Swap(FrontMerged(dd, d, r, s))
  {
    hide SideOk, ClearSector, Insert, Remove;
    Queued(dd, d);
    SwapSides(dd, d);
    var dd1 := Put(dd, d, Get(dd, d).(sort := Remove(Get(dd, d).sort, r)));
    RemoveFacts(Get(dd, d).sort, r);
    ClearSectorSorted(dd1, d, s);
    SwapClear(dd1, d, s);
    SwapInsert(ClearSector(dd1, d, s).(sector := dd.sector[r := s]), d, r);
  }

  lemma SwapMerged(dd: DD, d: Dir, r: nat, n: nat)
    requires Agree(dd) && Agree(Swap(dd)) && r in Get(dd, d).fifo && n in Get(dd, d).fifo && r != n
    ensures Get(Swap(dd), Other(d)) == Get(dd, d)
    ensures MergedRequests(Swap(dd), Other(d), r, n) == Swap(MergedRequests(dd, d, r, n))
  {
    hide SideOk, RemoveFrom, MoveBehind, Remove;
  }

  lemma SwapStep(w: World, op: Op)
    requires Sound(w) && Sound(Swapped(w)) && Enabled(w, op) && !op.Call?
    ensures Enabled(Swapped(w), SwapOp(op))
    ensures Apply(Swapped(w), SwapOp(op)) == Swapped(Apply(w, op))
  {
    hide Agree, Timely, AddRequest, FrontMerged, MergedRequests, Get;
    match op
    case Add(d, r, s) => SwapAdd(w.dd, d, r, s, w.now);
    case Front(d, r, s) => SwapFront(w.dd, d, r, s);
    case Merge(d, r, n) => SwapMerged(w.dd, d, r, n);
    case Wait(_) =>
  }

  // ----- an expired read leaves -----

  /** The read `x` is still queued and has expired. */
  predicate ReadOverdue(w: World, x: nat) {
    x in w.dd.rd.fifo && x in w.dd.expires && w.now > w.dd.expires[x]
  }

  function ReadPos(w: World, x: nat): nat
    requires x in w.dd.rd.fifo
  {
    Index(w.dd.rd.fifo, x)
  }

  /** Dispatch calls until a new batch of reads has started, at most. */
  function UntilReads(dd: DD): nat {
    Left(dd) + 1 + (if dd.starved >= dd.tun.writesStarved then Batch(dd.tun) else 0)
  }

  /** A batch of each direction for every read in front. */
  function ReadDistance(dd: DD, pos: nat): int { pos * (2 * Batch(dd.tun)) + UntilReads(dd) }

  /** What a step of any kind leaves of a queued read's place. */
  lemma ReadForward(w: World, op: Op, x: nat)
    requires Sound(w) && Enabled(w, op) && x in w.dd.sector
    ensures x in Apply(w, op).dd.sector
    ensures x !in w.dd.rd.fifo ==> x !in Apply(w, op).dd.rd.fifo
    ensures x in w.dd.rd.fifo && x in Apply(w, op).dd.rd.fifo ==> ReadPos(Apply(w, op), x) <= ReadPos(w, x)
  {
    if op.Call? {
      CallReads(w, x);
    } else {
      SwapAgree(w);
      SwapStep(w, op);
      StepForward(Swapped(w), SwapOp(op), x);
      hide Agree, Timely, Apply, Enabled;
    }
  }

  lemma CallReads(w: World, x: nat)
    requires Sound(w) && x in w.dd.sector
    ensures Enabled(w, Call) && x in Apply(w, Call).dd.sector
    ensures
      var l := Apply(w, Call).dd.rd.fifo;
      x in l ==> x in w.dd.rd.fifo && Index(l, x) <= Index(w.dd.rd.fifo, x)
  {
    hide Timely, SideOk, Dispatch;
    ApplyCall(w);
    DispatchReads(w.dd, w.now, x);
    hide Apply, Agree;
  }

  lemma DispatchReads(dd: DD, now: int, x: nat)
    requires Agree(dd) && x in dd.sector
    ensures
      var dd1 := Dispatch(dd, now);
      && x in dd1.sector
      && (x in dd1.rd.fifo ==> x in dd.rd.fifo && Index(dd1.rd.fifo, x) <= Index(dd.rd.fifo, x))
  {
    Queued(dd, READ);
    Queued(dd, WRITE);
    match MakePlan(dd)
    case Idle =>
    case Continue(d, r) => TakenReads(dd, d, r, x);
    case NewBatch(d) => TakenReads(dd, d, Pick(dd, d, now), x);
  }

  lemma TakenReads(dd: DD, d: Dir, r: nat, x: nat)
    requires Agree(dd) && r in Get(dd, d).sort
    ensures
      var l := MoveRequest(dd, d, r).rd.fifo;
      x in l ==> x in dd.rd.fifo && Index(l, x) <= Index(dd.rd.fifo, x)
  {
    Queued(dd, d);
    SwapMove(dd, d, r);
    SwapDd(dd);
    TakenForward(Swap(dd), Other(d), r, x);
    hide Agree, MoveRequest;
  }

  lemma SwapDd(dd: DD)
    requires Agree(dd)
    ensures Agree(Swap(dd))
  {
    hide SideOk;
  }

  lemma ReadExpiryKept(w: World, op: Op, x: nat)
    requires Sound(w) && Enabled(w, op) && ReadOverdue(w, x) && x in Apply(w, op).dd.rd.fifo
    ensures ReadOverdue(Apply(w, op), x)
  {
    hide SideOk, ClearSector, Insert, MoveRequest, RemoveFrom;
    assert x in w.dd.sector by { Queued(w.dd, READ); }
  }

  /** A new batch of reads brings an expired one forward by a place. */
  lemma NewReads(dd: DD, now: int, x: nat)
    requires Agree(dd) && MakePlan(dd) == NewBatch(READ) && x in dd.rd.fifo && x in dd.expires && now > dd.expires[x]
    requires x in Dispatch(dd, now).rd.fifo
    ensures Index(Dispatch(dd, now).rd.fifo, x) == Index(dd.rd.fifo, x) - 1
  {
    var h := dd.rd.fifo[0];
    FifoOrdered(dd, READ);
    FirstExpires(dd.expires, dd.rd.fifo, x);
    Queued(dd, READ);
    hide Agree, ByExpiry;
    assert Dispatch(dd, now).rd.fifo == Remove(dd.rd.fifo, h);
    RemoveFacts(dd.rd.fifo, h);
    IndexUnique(dd.rd.fifo, h, 0);
    RemoveForward(dd.rd.fifo, h, x);
  }

  lemma CallCounts(dd: DD, now: int)
    requires Agree(dd) && dd.rd.fifo != [] && dd.tun.writesStarved >= 1
    ensures Dispatch(dd, now).tun == dd.tun
    ensures
      var u, u1 := UntilReads(dd), UntilReads(Dispatch(dd, now));
      && 1 <= u && u1 <= 2 * Batch(dd.tun) + 1
      && if MakePlan(dd) == NewBatch(READ) then u1 <= 2 * Batch(dd.tun) else u1 + 1 <= u
  {
    hide SideOk, MoveRequest, Pick;
  }

  lemma ReadCallCloser(dd: DD, now: int, x: nat)
    requires Agree(dd) && dd.tun.writesStarved >= 1
    requires x in dd.rd.fifo && x in dd.expires && now > dd.expires[x] && x in Dispatch(dd, now).rd.fifo
    ensures ReadDistance(Dispatch(dd, now), Index(Dispatch(dd, now).rd.fifo, x)) + 1
            <= ReadDistance(dd, Index(dd.rd.fifo, x))
  {
    Queued(dd, READ);
    CallCounts(dd, now);
    DispatchReads(dd, now, x);
    var i, j := Index(dd.rd.fifo, x), Index(Dispatch(dd, now).rd.fifo, x);
    if MakePlan(dd) == NewBatch(READ) {
      NewReads(dd, now, x);
      hide *;
      Places(dd, Dispatch(dd, now), i, j);
    } else {
      hide *;
      Places(dd, Dispatch(dd, now), i, j);
    }
  }

  lemma Places(dd: DD, dd1: DD, i: nat, j: nat)
    requires dd1.tun == dd.tun && j <= i
    requires UntilReads(dd1) + 1 <= UntilReads(dd) ||
             (j == i - 1 && UntilReads(dd1) <= 2 * Batch(dd.tun) && UntilReads(dd) >= 1)
    ensures ReadDistance(dd1, j) + 1 <= ReadDistance(dd, i)
  {
    hide UntilReads, Batch;
    var b := 2 * Batch(dd.tun);
    if j == i - 1 {
      assert i * b == j * b + b;
    }
    ScaleDown(j, i, b);
  }

  lemma ReadStepCloser(w: World, op: Op, x: nat)
    requires Sound(w) && Enabled(w, op) && ReadOverdue(w, x) && x in Apply(w, op).dd.rd.fifo
    requires w.dd.tun.writesStarved >= 1
    ensures ReadDistance(Apply(w, op).dd, ReadPos(Apply(w, op), x)) + (if op.Call? then 1 else 0)
            <= ReadDistance(w.dd, ReadPos(w, x))
  {
    SoundAgrees(w);
    if op.Call? {
      hide Timely, SideOk, Dispatch, ReadDistance;
      ApplyCall(w);
      ReadCallCloser(w.dd, w.now, x);
    } else {
      Queued(w.dd, READ);
      hide *;
      ReadForward(w, op, x);
      CountersKept(w, op);
      SameUntil(w.dd, Apply(w, op).dd, ReadPos(w, x), ReadPos(Apply(w, op), x));
    }
  }

  lemma SameUntil(dd: DD, dd1: DD, i: nat, j: nat)
    requires dd1.batching == dd.batching && dd1.starved == dd.starved && dd1.tun == dd.tun && j <= i
    ensures ReadDistance(dd1, j) <= ReadDistance(dd, i)
  {
    ScaleDown(j, i, 2 * Batch(dd.tun));
  }

  lemma {:induction false} ReadGone(w: World, run: seq<Op>, w1: World, x: nat)
    requires Sound(w) && Runs(w, run, w1) && x in w.dd.sector && x !in w.dd.rd.fifo
    ensures x !in w1.dd.rd.fifo
    decreases |run|
  {
    if run != [] {
      hide Agree, Apply;
      StepSound(w, run[0]);
      ReadForward(w, run[0], x);
      ReadGone(Apply(w, run[0]), run[1..], w1, x);
    }
  }

  lemma {:induction false} ReadOverdueLeaves(w: World, run: seq<Op>, w1: World, x: nat)
    requires Sound(w) && Runs(w, run, w1) && ReadOverdue(w, x) && x in w1.dd.rd.fifo && w.dd.tun.writesStarved >= 1
    ensures Calls(run) < ReadDistance(w.dd, ReadPos(w, x))
    decreases |run|
  {
    SoundAgrees(w);
    if run == [] {
      ProductNotNegative(ReadPos(w, x), 2 * Batch(w.dd.tun));
    } else {
      Queued(w.dd, READ);
      hide Agree, Apply, ReadDistance;
      var w2 := Apply(w, run[0]);
      StepSound(w, run[0]);
      TunKept(w, run[0]);
      ReadForward(w, run[0], x);
      if x !in w2.dd.rd.fifo {
        ReadGone(w2, run[1..], w1, x);
        assert false;
      }
      ReadExpiryKept(w, run[0], x);
      ReadStepCloser(w, run[0], x);
      ReadOverdueLeaves(w2, run[1..], w1, x);
    }
  }

  lemma TunKept(w: World, op: Op)
    requires Sound(w) && Enabled(w, op)
    ensures Apply(w, op).dd.tun == w.dd.tun
  {
    SoundAgrees(w);
    if op.Call? {
      hide SideOk, Dispatch, Timely;
      ApplyCall(w);
      DispatchCounts(w.dd, w.now);
    } else {
      CountersKept(w, op);
    }
  }

  /** The latency bound of reads, when writes_starved is not zero: an expired read at position k of the FIFO has
      left after more than (k + 1) * 2 * fifo_batch dispatch calls, whatever is added or merged meanwhile. */
  lemma {:induction false} ExpiredReadLeaves(w: World, run: seq<Op>, w1: World, x: nat)
    requires Sound(w) && Runs(w, run, w1) && ReadOverdue(w, x) && w.dd.tun.writesStarved >= 1
    requires Calls(run) > (ReadPos(w, x) + 1) * (2 * Batch(w.dd.tun))
    ensures x !in w1.dd.rd.fifo
  {
    hide Runs;
    assert x in w.dd.rd.fifo;
    hide *;
    if x in w1.dd.rd.fifo {
      ReadOverdueLeaves(w, run, w1, x);
      Covers(w.dd, ReadPos(w, x));
    }
  }

  lemma Covers(dd: DD, k: nat)
    ensures ReadDistance(dd, k) <= (k + 1) * (2 * Batch(dd.tun)) + 1
  {
    assert (k + 1) * (2 * Batch(dd.tun)) == k * (2 * Batch(dd.tun)) + 2 * Batch(dd.tun);
  }

  // ----- and when it is zero -----

  /** The requests added so far are 0 to `k`. */
  ghost predicate Numbered(dd: DD, k: nat) { forall x: nat :: x in dd.sector <==> x <= k }

  /** One expired read, and nothing next. */
  ghost predicate Neglected(w: World, k: nat) {
    && w.dd.rd.fifo == [0] && w.dd.rd.next == None && ReadOverdue(w, 0)
    && w.dd.starved == 0 == w.dd.tun.writesStarved && Numbered(w.dd, k)
  }

  lemma Write(w: World, k: nat)
    requires Sound(w) && Neglected(w, k) && w.dd.wr == Side([], [], None)
    ensures Enabled(w, Add(WRITE, k + 1, 0))
    ensures
      var w1 := Apply(w, Add(WRITE, k + 1, 0));
      Sound(w1) && Neglected(w1, k + 1) && w1.dd.wr == Side([k + 1], [k + 1], None)
  {
    StepSound(w, Add(WRITE, k + 1, 0));
    hide SideOk, Timely;
  }

  lemma Preferred(w: World, k: nat)
    requires Sound(w) && Neglected(w, k) && w.dd.wr == Side([k], [k], None)
    ensures Enabled(w, Call)
    ensures var w1 := Apply(w, Call); Sound(w1) && Neglected(w1, k) && w1.dd.wr == Side([], [], None)
  {
    StepSound(w, Call);
    hide SideOk, Timely;
    ApplyCall(w);
    WriteTaken(w.dd, w.now, k);
    hide Apply, Dispatch;
  }

  lemma WriteTaken(dd: DD, now: int, k: nat)
    requires Agree(dd) && dd.wr == Side([k], [k], None) && dd.rd.fifo == [0] && dd.rd.next == None
    requires dd.starved == 0 == dd.tun.writesStarved
    ensures
      var dd1 := Dispatch(dd, now);
      && dd1.wr == Side([], [], None) && dd1.rd == dd.rd && dd1.tun == dd.tun
      && dd1.starved == 0 && dd1.sector == dd.sector && dd1.expires == dd.expires
  {
    hide SideOk;
    assert MakePlan(dd) == NewBatch(WRITE);
  }

  lemma {:induction false} Neglect(w: World, k: nat, n: nat) returns (run: seq<Op>, w1: World)
    requires Sound(w) && Neglected(w, k) && w.dd.wr == Side([], [], None)
    ensures Runs(w, run, w1) && Calls(run) == n && ReadOverdue(w1, 0)
    decreases n
  {
    if n == 0 {
      run, w1 := [], w;
    } else {
      var a := Add(WRITE, k + 1, 0);
      Write(w, k);
      Preferred(Apply(w, a), k + 1);
      var rest;
      hide Sound, Apply, ReadOverdue, Numbered;
      rest, w1 := Neglect(Apply(Apply(w, a), Call), k + 1, n - 1);
      run := [a, Call] + rest;
      Twice(w, a, Call, rest, w1);
    }
  }

  function One(op: Op): nat { if op.Call? then 1 else 0 }

  lemma Twice(w: World, a: Op, b: Op, rest: seq<Op>, w1: World)
    requires Sound(w) && Enabled(w, a) && Sound(Apply(w, a)) && Enabled(Apply(w, a), b)
    requires Sound(Apply(Apply(w, a), b)) && Runs(Apply(Apply(w, a), b), rest, w1)
    ensures Runs(w, [a, b] + rest, w1) && Calls([a, b] + rest) == One(a) + One(b) + Calls(rest)
  {
    hide Agree, Timely, Apply, Enabled;
    assert ([a, b] + rest)[1..] == [b] + rest && ([b] + rest)[1..] == rest;
  }

  /** With writes_starved zero there is no bound: for every `n` a read that has expired, at the head of the FIFO,
      is still there after `n` dispatch calls. */
  lemma ReadStarves(tun: Tunables, t0: int, n: nat)
      returns (setup: seq<Op>, w: World, run: seq<Op>, w1: World)
    requires tun.writesStarved == 0
    ensures Runs(Start(tun, t0), setup, w) && ReadOverdue(w, 0) && ReadPos(w, 0) == 0
    ensures Sound(w) && Runs(w, run, w1) && Calls(run) == n && ReadOverdue(w1, 0)
  {
    var a, b := Add(READ, 0, 0), Wait(tun.readExpire + 1);
    FirstRead(tun, t0);
    w := Apply(Apply(Start(tun, t0), a), b);
    setup := [a, b] + [];
    hide Sound, Agree, Start, Apply, Numbered;
    Twice(Start(tun, t0), a, b, [], w);
    run, w1 := Neglect(w, 0, n);
  }

  lemma FirstRead(tun: Tunables, t0: int)
    requires tun.writesStarved == 0
    ensures
      var a, b, w := Add(READ, 0, 0), Wait(tun.readExpire + 1), Start(tun, t0);
      && Enabled(w, a) && Sound(Apply(w, a)) && Enabled(Apply(w, a), b)
      && Sound(Apply(Apply(w, a), b)) && Neglected(Apply(Apply(w, a), b), 0)
      && Apply(Apply(w, a), b).dd.wr == Side([], [], None) && ReadPos(Apply(Apply(w, a), b), 0) == 0
  {
    var w := Start(tun, t0);
    StepSound(w, Add(READ, 0, 0));
    FirstAdded(tun, t0);
    Expires(Apply(w, Add(READ, 0, 0)), tun.readExpire + 1);
  }

  lemma FirstAdded(tun: Tunables, t0: int)
    ensures Enabled(Start(tun, t0), Add(READ, 0, 0))
    ensures
      var w := Apply(Start(tun, t0), Add(READ, 0, 0));
      && w.dd.rd == Side([0], [0], None) && w.dd.wr == Side([], [], None) && w.dd.starved == 0 && w.dd.tun == tun
      && w.dd.sector == map[0 := 0] && w.dd.expires == map[0 := t0 + tun.readExpire] && w.now == t0
  {
    hide SideOk, Timely;
  }

  lemma Expires(w: World, ticks: nat)
    requires Sound(w) && w.dd.rd == Side([0], [0], None) && w.dd.starved == 0 == w.dd.tun.writesStarved
    requires w.dd.sector == map[0 := 0] && 0 in w.dd.expires && w.dd.expires[0] < w.now + ticks
    ensures Enabled(w, Wait(ticks)) && Sound(Apply(w, Wait(ticks))) && Neglected(Apply(w, Wait(ticks)), 0)
    ensures Apply(w, Wait(ticks)).dd == w.dd && ReadPos(Apply(w, Wait(ticks)), 0) == 0
  {
    StepSound(w, Wait(ticks));
    hide SideOk, Timely;
  }
}

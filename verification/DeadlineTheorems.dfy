/** The deadline scheduler over runs. */
module DeadlineTheorems {
  import opened Lists
  import opened Deadline
  import opened DeadlineSteps

  // ----- runs -----

  datatype Op =
    | Add(d: Dir, r: nat, s: nat)
    | Front(d: Dir, r: nat, s: nat)
    | Merge(d: Dir, r: nat, n: nat)
    | Call
    | Wait(ticks: nat)

  datatype World = World(dd: DD, now: int)

  /** Requests are added once; merges concern requests that are queued. */
  predicate Enabled(w: World, op: Op) {
    match op
    case Add(_, r, _) => r !in w.dd.sector
    case Front(d, r, _) => r in Get(w.dd, d).sort
    case Merge(d, r, n) => r in Get(w.dd, d).fifo && n in Get(w.dd, d).fifo && r != n
    case Call => true
    case Wait(_) => true
  }

  function Apply(w: World, op: Op): World
    requires Agree(w.dd) && Enabled(w, op)
  {
    match op
    case Add(d, r, s) => w.(dd := AddRequest(w.dd, d, r, s, w.now))
    case Front(d, r, s) => w.(dd := FrontMerged(w.dd, d, r, s))
    case Merge(d, r, n) => w.(dd := MergedRequests(w.dd, d, r, n))
    case Call => w.(dd := Dispatch(w.dd, w.now))
    case Wait(ticks) => w.(now := w.now + ticks)
  }

  ghost predicate Sound(w: World) { Agree(w.dd) && Timely(w.dd, w.now) }

  lemma ApplyCall(w: World)
    requires Agree(w.dd)
    ensures Enabled(w, Call) && Apply(w, Call) == w.(dd := Dispatch(w.dd, w.now))
  {
    hide Dispatch, SideOk;
  }

  lemma StepSound(w: World, op: Op)
    requires Sound(w) && Enabled(w, op)
    ensures Sound(Apply(w, op))
  {
    match op
    case Add(d, r, s) => AddOk(w.dd, d, r, s, w.now);
    case Front(d, r, s) => FrontMergedOk(w.dd, d, r, s, w.now);
    case Merge(d, r, n) => MergedOk(w.dd, d, r, n, w.now);
    case Call => DispatchOk(w.dd, w.now);
    case Wait(_) =>
  }

  predicate Runs(w: World, run: seq<Op>, w1: World)
    requires Sound(w)
    decreases |run|
  {
    if run == [] then w == w1
    else Enabled(w, run[0]) && (StepSound(w, run[0]); Runs(Apply(w, run[0]), run[1..], w1))
  }

  /** In every reachable state the indexes agree. */
  lemma {:induction false} RunSound(w: World, run: seq<Op>, w1: World)
    requires Sound(w) && Runs(w, run, w1)
    ensures Sound(w1)
    decreases |run|
  {
    hide Agree, Apply;
    if run != [] {
      StepSound(w, run[0]);
      RunSound(Apply(w, run[0]), run[1..], w1);
    }
  }

  /** An empty scheduler, at any time. */
  function Start(tun: Tunables, now: int): (w: World)
    ensures Sound(w)
  {
    World(Init(tun), now)
  }

  /** Looking at the head of the FIFO decides whether any request has expired. */
  lemma {:induction false} HeadDecides(tun: Tunables, t0: int, run: seq<Op>, w: World, d: Dir)
    requires Runs(Start(tun, t0), run, w)
    requires Get(w.dd, d).fifo != []
    ensures Get(w.dd, d).fifo[0] in w.dd.expires
    ensures CheckFifo(w.dd, d, w.now) <==>
            exists x :: x in Get(w.dd, d).fifo && x in w.dd.expires && w.now > w.dd.expires[x]
  {
    hide Agree, Runs, Start, Init, ByExpiry;
    RunSound(Start(tun, t0), run, w);
    var l := Get(w.dd, d).fifo;
    FifoOrdered(w.dd, d);
    assert l[0] in l;
    forall x | x in l && w.now > w.dd.expires[x] ensures CheckFifo(w.dd, d, w.now) {
      FirstExpires(w.dd.expires, l, x);
    }
  }

  lemma FifoOrdered(dd: DD, d: Dir)
    requires Agree(dd)
    ensures forall x :: x in Get(dd, d).fifo ==> x in dd.expires
    ensures ByExpiry(dd.expires, Get(dd, d).fifo)
  {
    hide Ascending, ByExpiry;
  }

  lemma FirstExpires(expires: map<nat, int>, l: seq<nat>, x: nat)
    requires (forall y :: y in l ==> y in expires) && ByExpiry(expires, l) && x in l
    ensures expires[l[0]] <= expires[x]
  {
    var i :| 0 <= i < |l| && l[i] == x;
    assert i > 0 ==> expires[l[0]] <= expires[l[i]];
  }

  // ----- reads cannot starve writes -----

  /** How many requests the current batch may still dispatch. */
  function Left(dd: DD): nat {
    if dd.batching < dd.tun.fifoBatch then dd.tun.fifoBatch - dd.batching else 0
  }

  /** How many requests a new batch dispatches at most. */
  function Batch(tun: Tunables): nat { if tun.fifoBatch == 0 then 1 else tun.fifoBatch }

  /** How many dispatch calls may still choose reads while a write is pending. */
  function ReadBudget(dd: DD): int {
    Left(dd) + (dd.tun.writesStarved - dd.starved) * Batch(dd.tun)
  }

  predicate ChoosesRead(dd: DD) {
    MakePlan(dd) == NewBatch(READ) || (MakePlan(dd).Continue? && MakePlan(dd).d == READ)
  }

  lemma DispatchCounts(dd: DD, now: int)
    requires Agree(dd)
    ensures var dd1 := Dispatch(dd, now);
            && dd1.tun == dd.tun
            && (MakePlan(dd).Continue? ==>
                  dd1.batching == dd.batching + 1 && dd1.starved == dd.starved
                  && dd.batching < dd.tun.fifoBatch)
            && (MakePlan(dd) == NewBatch(READ) && dd.wr.fifo != [] ==>
                  dd1.batching == 1 && dd1.starved == dd.starved + 1
                  && dd.starved < dd.tun.writesStarved)
            && (MakePlan(dd) == NewBatch(WRITE) ==> dd1.batching == 1 && dd1.starved == 0)
            && (dd.wr.fifo != [] ==> !MakePlan(dd).Idle?)
  {
  }

  lemma ReadSpends(dd: DD, now: int)
    requires Agree(dd) && dd.wr.fifo != [] && ChoosesRead(dd)
    ensures ReadBudget(Dispatch(dd, now)) <= ReadBudget(dd) - 1
  {
    hide Dispatch, Agree, MakePlan;
    DispatchCounts(dd, now);
    var dd1 := Dispatch(dd, now);
    if MakePlan(dd).NewBatch? {
      LessByOne(dd.tun.writesStarved - dd.starved, Batch(dd.tun));
    }
  }

  lemma LessByOne(n: int, b: int)
    ensures (n - 1) * b == n * b - b
  {
  }

  /** Adding, merging and waiting change neither counter. */
  lemma CountersKept(w: World, op: Op)
    requires Sound(w) && Enabled(w, op) && !op.Call?
    ensures var w1 := Apply(w, op);
            && w1.dd.batching == w.dd.batching && w1.dd.starved == w.dd.starved
            && w1.dd.tun == w.dd.tun
  {
    hide SideOk, ClearSector, Insert, MoveRequest, RemoveFrom;
  }

  function Calls(run: seq<Op>): nat {
    if run == [] then 0 else (if run[0].Call? then 1 else 0) + Calls(run[1..])
  }

  /** At every dispatch call of the run a write is pending, yet a read is chosen. */
  predicate ReadsPreferred(w: World, run: seq<Op>)
    requires Sound(w)
    decreases |run|
  {
    run == [] ||
    (Enabled(w, run[0])
     && (run[0].Call? ==> w.dd.wr.fifo != [] && ChoosesRead(w.dd))
     && (StepSound(w, run[0]); ReadsPreferred(Apply(w, run[0]), run[1..])))
  }

  lemma BudgetNotNegative(dd: DD)
    requires dd.starved <= dd.tun.writesStarved
    ensures ReadBudget(dd) >= 0
  {
    ProductNotNegative(dd.tun.writesStarved - dd.starved, Batch(dd.tun));
  }

  lemma ProductNotNegative(a: nat, b: nat)
    ensures a * b >= 0
  {
  }

  /** The starvation bound. */
  lemma {:induction false} WritesNotStarved(w: World, run: seq<Op>)
    requires Sound(w) && ReadsPreferred(w, run)
    ensures Calls(run) <= ReadBudget(w.dd)
    decreases |run|
  {
    if run == [] {
      BudgetNotNegative(w.dd);
    } else {
      hide SideOk, Timely, Apply, ReadBudget, ChoosesRead;
      StepSound(w, run[0]);
      WritesNotStarved(Apply(w, run[0]), run[1..]);
      BudgetStep(w, run[0]);
    }
  }

  lemma BudgetStep(w: World, op: Op)
    requires Sound(w) && Enabled(w, op) && (op.Call? ==> w.dd.wr.fifo != [] && ChoosesRead(w.dd))
    ensures ReadBudget(Apply(w, op).dd) + (if op.Call? then 1 else 0) <= ReadBudget(w.dd)
  {
    if op.Call? {
      BudgetCall(w);
    } else {
      CountersKept(w, op);
      hide *;
      SoundAgrees(w);
      BudgetSame(w.dd, Apply(w, op).dd);
    }
  }

  lemma SoundAgrees(w: World)
    requires Sound(w)
    ensures Agree(w.dd)
  {
    hide Agree;
  }

  lemma BudgetSame(dd: DD, dd1: DD)
    requires dd1.batching == dd.batching && dd1.starved == dd.starved && dd1.tun == dd.tun
    ensures ReadBudget(dd1) == ReadBudget(dd)
  {
  }

  lemma BudgetCall(w: World)
    requires Sound(w) && w.dd.wr.fifo != [] && ChoosesRead(w.dd)
    ensures Enabled(w, Call) && ReadBudget(Apply(w, Call).dd) + 1 <= ReadBudget(w.dd)
  {
    hide Timely, SideOk, Dispatch, ReadBudget, ChoosesRead;
    ApplyCall(w);
    ReadSpends(w.dd, w.now);
    hide Apply, Agree;
  }

  // ----- an expired write leaves -----

  /** Dispatch calls until a new batch of writes has started, at most. */
  function UntilWrites(dd: DD): int { ReadBudget(dd) + 1 }

  function Round(tun: Tunables): nat { (tun.writesStarved + 1) * Batch(tun) + 1 }

  function Rounds(tun: Tunables, k: nat): nat { k * Round(tun) }

  /** What is left of an expired write at position `pos`: full rounds and the current one. */
  function Distance(dd: DD, pos: nat): int { pos * Round(dd.tun) + UntilWrites(dd) }

  lemma UntilWritesBound(dd: DD)
    requires dd.starved <= dd.tun.writesStarved
    ensures 1 <= UntilWrites(dd) <= Round(dd.tun)
  {
    BudgetNotNegative(dd);
    var n, b, s := dd.tun.writesStarved, Batch(dd.tun), dd.starved;
    assert (n - s) * b == n * b - s * b;
    ProductNotNegative(s, b);
    assert (n + 1) * b == n * b + b;
  }

  /** Taking a request out of a list brings the others forward. */
  lemma RemoveForward(l: seq<nat>, y: nat, x: nat)
    requires NoDup(l) && y in l && x in l && x != y
    ensures x in Remove(l, y) && NoDup(Remove(l, y))
    ensures Index(Remove(l, y), x) == if Index(l, y) < Index(l, x) then Index(l, x) - 1 else Index(l, x)
  {
    RemoveFacts(l, y);
    RemoveAt(l, y);
    var i := if Index(l, y) < Index(l, x) then Index(l, x) - 1 else Index(l, x);
    assert Remove(l, y)[i] == x;
    IndexUnique(Remove(l, y), x, i);
  }

  lemma AppendKeeps(l: seq<nat>, y: nat, x: nat)
    requires x in l
    ensures x in l + [y] && Index(l + [y], x) == Index(l, x)
  {
    if l[0] != x {
      assert (l + [y])[1..] == l[1..] + [y];
      AppendKeeps(l[1..], y, x);
    }
  }

  /** A merge never moves a remaining request back: the survivor takes the earlier place. */
  lemma MergeForward(l: seq<nat>, r: nat, n: nat, x: nat)
    requires NoDup(l) && r in l && n in l && r != n && x in l && x != n
    requires Index(l, n) < Index(l, r)
    ensures n in Remove(l, r) && n in MoveBehind(l, r, n)
    ensures var m := Remove(MoveBehind(l, r, n), n); x in m && Index(m, x) <= Index(l, x)
  {
    RemoveForward(l, r, n);
    RemoveFacts(l, r);
    var lr := Remove(l, r);
    var k := Index(lr, n);
    TakesPlace(lr, k, r);
    var m := lr[k := r];
    assert NoDup(m);
    if x == r {
      IndexUnique(m, r, k);
    } else {
      RemoveForward(l, r, x);
      assert m[Index(lr, x)] == x;
      IndexUnique(m, x, Index(lr, x));
    }
  }

  lemma EarlierBefore(expires: map<nat, int>, l: seq<nat>, r: nat, n: nat)
    requires r in l && n in l && forall y :: y in l ==> y in expires
    requires ByExpiry(expires, l) && expires[n] < expires[r]
    ensures Index(l, n) < Index(l, r)
  {
  }

  // ----- one step -----

  /** The write `x` is still queued and has expired. */
  predicate Overdue(w: World, x: nat) {
    x in w.dd.wr.fifo && x in w.dd.expires && w.now > w.dd.expires[x]
  }

  function Pos(w: World, x: nat): nat
    requires x in w.dd.wr.fifo
  {
    Index(w.dd.wr.fifo, x)
  }

  lemma MoveForward(dd: DD, d: Dir, r: nat, x: nat)
    requires Agree(dd) && r in Get(dd, d).sort && x in dd.wr.fifo
    ensures var dd1 := MoveRequest(dd, d, r);
            && (d == WRITE ==> dd1.wr.fifo == Remove(dd.wr.fifo, r))
            && (d == READ ==> dd1.wr.fifo == dd.wr.fifo)
            && (x in dd1.wr.fifo ==> Index(dd1.wr.fifo, x) <= Index(dd.wr.fifo, x))
  {
    if d == WRITE && x != r { RemoveForward(dd.wr.fifo, r, x); }
    if d == WRITE && x == r { RemoveFacts(dd.wr.fifo, r); }
  }

  /** Whatever the operation, a write that stays keeps its place or moves forward, and a write
      that has left does not come back. */
  lemma StepForward(w: World, op: Op, x: nat)
    requires Sound(w) && Enabled(w, op) && x in w.dd.sector
    ensures x in Apply(w, op).dd.sector
    ensures x !in w.dd.wr.fifo ==> x !in Apply(w, op).dd.wr.fifo
    ensures x in w.dd.wr.fifo && x in Apply(w, op).dd.wr.fifo ==> Pos(Apply(w, op), x) <= Pos(w, x)
  {
    match op
    case Add(d, r, s) => AddForward(w.dd, d, r, s, w.now, x);
    case Front(d, r, s) => FrontForward(w.dd, d, r, s, x);
    case Merge(d, r, n) => MergedForward(w.dd, d, r, n, x);
    case Call => DispatchForward(w.dd, w.now, x);
    case Wait(_) =>
  }

  lemma ClearForward(dd: DD, d: Dir, s: nat, x: nat)
    requires forall y :: y in Get(dd, d).sort ==> y in dd.sector && y in Get(dd, d).fifo
    requires NoDup(dd.wr.fifo)
    ensures var l := ClearSector(dd, d, s).wr.fifo;
            && (x in l ==> x in dd.wr.fifo && Index(l, x) <= Index(dd.wr.fifo, x))
            && NoDup(l)
  {
    var alias := Find(dd.sector, Get(dd, d).sort, s);
    if alias.Some? && d == WRITE {
      RemoveFacts(dd.wr.fifo, alias.value);
      if x in dd.wr.fifo && x != alias.value { RemoveForward(dd.wr.fifo, alias.value, x); }
    }
  }

  lemma AddForward(dd: DD, d: Dir, r: nat, s: nat, now: int, x: nat)
    requires Agree(dd) && r !in dd.sector && x in dd.sector
    ensures var dd1 := AddRequest(dd, d, r, s, now);
            && x in dd1.sector
            && (x in dd1.wr.fifo ==> x in dd.wr.fifo && Index(dd1.wr.fifo, x) <= Index(dd.wr.fifo, x))
  {
    hide Insert, ClearSector;
    ClearForward(dd, d, s, x);
    ClearSectorSorted(dd, d, s);
    var dd1 := ClearSector(dd, d, s);
    InsertFrame(JoinFifo(dd1, d, r, s, now), d, r, now);
    if d == WRITE && x in dd1.wr.fifo { AppendKeeps(dd1.wr.fifo, r, x); }
  }

  lemma FrontForward(dd: DD, d: Dir, r: nat, s: nat, x: nat)
    requires Agree(dd) && r in Get(dd, d).sort && x in dd.sector
    ensures var dd1 := FrontMerged(dd, d, r, s);
            && x in dd1.sector
            && (x in dd1.wr.fifo ==> x in dd.wr.fifo && Index(dd1.wr.fifo, x) <= Index(dd.wr.fifo, x))
  {
    hide Insert, ClearSector;
    var dd1 := Put(dd, d, Get(dd, d).(sort := Remove(Get(dd, d).sort, r)));
    RemoveFacts(Get(dd, d).sort, r);
    ClearForward(dd1, d, s, x);
    ClearSectorSorted(dd1, d, s);
    InsertFrame(ClearSector(dd1, d, s).(sector := dd.sector[r := s]), d, r, 0);
  }

  lemma MergedForward(dd: DD, d: Dir, r: nat, n: nat, x: nat)
    requires Agree(dd) && r in Get(dd, d).fifo && n in Get(dd, d).fifo && r != n && x in dd.sector
    ensures var dd1 := MergedRequests(dd, d, r, n);
            && x in dd1.sector
            && (x in dd1.wr.fifo ==> x in dd.wr.fifo && Index(dd1.wr.fifo, x) <= Index(dd.wr.fifo, x))
  {
    MergedWrites(dd, d, r, n);
    SideLists(dd);
    if d == WRITE {
      hide Agree, MergedRequests;
      if dd.expires[n] < dd.expires[r] {
        EarlierBefore(dd.expires, dd.wr.fifo, r, n);
        RemoveFacts(MoveBehind(dd.wr.fifo, r, n), n);
        if x in dd.wr.fifo && x != n { MergeForward(dd.wr.fifo, r, n, x); }
      } else {
        RemoveFacts(dd.wr.fifo, n);
        if x in dd.wr.fifo && x != n { RemoveForward(dd.wr.fifo, n, x); }
      }
    }
  }

  lemma SideLists(dd: DD)
    requires Agree(dd)
    ensures NoDup(dd.wr.fifo) && (forall y :: y in dd.wr.fifo ==> y in dd.expires) && ByExpiry(dd.expires, dd.wr.fifo)
  {
  }

  /** What a merge does to the writes in the FIFO. */
  lemma MergedWrites(dd: DD, d: Dir, r: nat, n: nat)
    requires Agree(dd) && r in Get(dd, d).fifo && n in Get(dd, d).fifo && r != n
    ensures MergedRequests(dd, d, r, n).sector == dd.sector
    ensures d == READ ==> MergedRequests(dd, d, r, n).wr == dd.wr
    ensures d == WRITE && dd.expires[n] < dd.expires[r] ==>
      && n in Remove(dd.wr.fifo, r) && NoDup(MoveBehind(dd.wr.fifo, r, n))
      && (forall y :: y in MoveBehind(dd.wr.fifo, r, n) <==> y in dd.wr.fifo)
      && MergedRequests(dd, d, r, n).wr.fifo == Remove(MoveBehind(dd.wr.fifo, r, n), n)
    ensures d == WRITE && dd.expires[n] >= dd.expires[r] ==>
      MergedRequests(dd, d, r, n).wr.fifo == Remove(dd.wr.fifo, n)
  {
    hide Ascending, ByExpiry, MoveBehind, Remove, Latter;
    if d == WRITE && dd.expires[n] < dd.expires[r] {
      EarlierSide(dd.sector, dd.expires, dd.wr, r, n);
    }
  }

  lemma DispatchForward(dd: DD, now: int, x: nat)
    requires Agree(dd) && x in dd.sector
    ensures var dd1 := Dispatch(dd, now);
            && x in dd1.sector
            && (x in dd1.wr.fifo ==> x in dd.wr.fifo && Index(dd1.wr.fifo, x) <= Index(dd.wr.fifo, x))
  {
    match MakePlan(dd)
    case Idle =>
    case Continue(d, r) => TakenForward(dd, d, r, x);
    case NewBatch(d) => TakenForward(dd, d, Pick(dd, d, now), x);
  }

  lemma TakenForward(dd: DD, d: Dir, r: nat, x: nat)
    requires Agree(dd) && r in Get(dd, d).sort
    ensures var l := MoveRequest(dd, d, r).wr.fifo;
            x in l ==> x in dd.wr.fifo && Index(l, x) <= Index(dd.wr.fifo, x)
  {
    if x in dd.wr.fifo {
      MoveForward(dd, d, r, x);
    } else if d == WRITE {
      RemoveFacts(dd.wr.fifo, r);
    }
  }

  lemma ExpiryKept(w: World, op: Op, x: nat)
    requires Sound(w) && Enabled(w, op) && Overdue(w, x) && x in Apply(w, op).dd.wr.fifo
    ensures Overdue(Apply(w, op), x)
  {
    hide SideOk, ClearSector, Insert, MoveRequest, RemoveFrom;
    assert x in w.dd.sector by { WrTracked(w.dd); }
  }

  lemma WrTracked(dd: DD)
    requires Agree(dd)
    ensures forall x :: x in dd.wr.fifo ==> x in dd.sector && x in dd.expires
    ensures NoDup(dd.wr.fifo)
  {
  }

  /** A new batch of writes starts with the head of the FIFO when some write has expired. */
  lemma HeadTaken(dd: DD, now: int, x: nat)
    requires Agree(dd) && x in dd.wr.fifo && now > dd.expires[x]
    ensures Pick(dd, WRITE, now) == dd.wr.fifo[0]
  {
    var i :| 0 <= i < |dd.wr.fifo| && dd.wr.fifo[i] == x;
  }

  lemma NewWritesForward(dd: DD, now: int, x: nat)
    requires Agree(dd) && MakePlan(dd) == NewBatch(WRITE) && x in dd.wr.fifo && now > dd.expires[x]
    requires x in Dispatch(dd, now).wr.fifo
    ensures Index(Dispatch(dd, now).wr.fifo, x) == Index(dd.wr.fifo, x) - 1
  {
    var h := dd.wr.fifo[0];
    HeadTaken(dd, now, x);
    WrTracked(dd);
    MoveForward(dd, WRITE, h, x);
    RemoveFacts(dd.wr.fifo, h);
    IndexUnique(dd.wr.fifo, h, 0);
    RemoveForward(dd.wr.fifo, h, x);
  }

  /** The same place or a better one, and `c` dispatch calls spent. */
  lemma Nearer(dd: DD, dd1: DD, pos: nat, pos1: nat, c: nat)
    requires dd1.tun == dd.tun && pos1 <= pos && ReadBudget(dd1) + c <= ReadBudget(dd)
    ensures Distance(dd1, pos1) + c <= Distance(dd, pos)
  {
    ScaleDown(pos1, pos, Round(dd.tun));
  }

  /** One place forward, and a full round ahead. */
  lemma NextRound(dd: DD, dd1: DD, pos: nat, pos1: nat)
    requires dd1.tun == dd.tun && pos1 == pos - 1 && dd.starved <= dd.tun.writesStarved
    requires dd1.batching == 1 && dd1.starved == 0
    ensures Distance(dd1, pos1) + 1 <= Distance(dd, pos)
  {
    FullRound(dd1);
    UntilWritesBound(dd);
    assert pos * Round(dd.tun) == pos1 * Round(dd.tun) + Round(dd.tun);
  }

  lemma CallCloser(dd: DD, now: int, x: nat)
    requires Agree(dd) && x in dd.wr.fifo && now > dd.expires[x] && x in Dispatch(dd, now).wr.fifo
    ensures Distance(Dispatch(dd, now), Index(Dispatch(dd, now).wr.fifo, x)) + 1
            <= Distance(dd, Index(dd.wr.fifo, x))
  {
    WrTracked(dd);
    DispatchCounts(dd, now);
    DispatchForward(dd, now, x);
    if MakePlan(dd) == NewBatch(WRITE) {
      NewWritesForward(dd, now, x);
      hide SideOk, Dispatch, Distance;
      NextRound(dd, Dispatch(dd, now), Index(dd.wr.fifo, x), Index(Dispatch(dd, now).wr.fifo, x));
    } else {
      CallSpends(dd, now);
      hide SideOk, Dispatch, Distance, ReadBudget;
      Nearer(dd, Dispatch(dd, now), Index(dd.wr.fifo, x), Index(Dispatch(dd, now).wr.fifo, x), 1);
    }
  }

  lemma CallSpends(dd: DD, now: int)
    requires Agree(dd) && dd.wr.fifo != [] && MakePlan(dd) != NewBatch(WRITE)
    ensures ReadBudget(Dispatch(dd, now)) + 1 <= ReadBudget(dd)
  {
    hide Dispatch, Agree;
    DispatchCounts(dd, now);
    if MakePlan(dd) == NewBatch(READ) { ReadSpends(dd, now); }
  }

  lemma ScaleDown(a: nat, b: nat, r: nat)
    requires a <= b
    ensures a * r <= b * r
  {
    assert b * r == a * r + (b - a) * r;
    ProductNotNegative(b - a, r);
  }

  lemma FullRound(dd: DD)
    requires dd.batching == 1 && dd.starved == 0
    ensures UntilWrites(dd) == Round(dd.tun) - 1
  {
    var n, b := dd.tun.writesStarved, Batch(dd.tun);
    assert (n + 1) * b == n * b + b;
  }

  lemma StepCloser(w: World, op: Op, x: nat)
    requires Sound(w) && Enabled(w, op) && Overdue(w, x) && x in Apply(w, op).dd.wr.fifo
    ensures Distance(Apply(w, op).dd, Pos(Apply(w, op), x)) + (if op.Call? then 1 else 0)
            <= Distance(w.dd, Pos(w, x))
  {
    if op.Call? {
      ClosesIn(w, x);
    } else {
      WrTracked(w.dd);
      StepNearer(w, op, x);
    }
  }

  lemma StepNearer(w: World, op: Op, x: nat)
    requires Sound(w) && Enabled(w, op) && !op.Call? && x in w.dd.sector
    requires x in w.dd.wr.fifo && x in Apply(w, op).dd.wr.fifo
    ensures Distance(Apply(w, op).dd, Pos(Apply(w, op), x)) <= Distance(w.dd, Pos(w, x))
  {
    hide *;
    SoundAgrees(w);
    StepForward(w, op, x);
    CountersKept(w, op);
    BudgetSame(w.dd, Apply(w, op).dd);
    Nearer(w.dd, Apply(w, op).dd, Pos(w, x), Pos(Apply(w, op), x), 0);
  }

  lemma ClosesIn(w: World, x: nat)
    requires Sound(w) && Overdue(w, x) && x in Dispatch(w.dd, w.now).wr.fifo
    ensures Enabled(w, Call) && Apply(w, Call).dd == Dispatch(w.dd, w.now)
    ensures Distance(Apply(w, Call).dd, Pos(Apply(w, Call), x)) + 1 <= Distance(w.dd, Pos(w, x))
  {
    hide Timely, SideOk, Dispatch, Distance;
    ApplyCall(w);
    CallCloser(w.dd, w.now, x);
    hide Apply, Agree;
  }

  // ----- runs -----

  /** A write that has left the FIFO does not return to it. */
  lemma {:induction false} GoneForGood(w: World, run: seq<Op>, w1: World, x: nat)
    requires Sound(w) && Runs(w, run, w1) && x in w.dd.sector && x !in w.dd.wr.fifo
    ensures x !in w1.dd.wr.fifo
    decreases |run|
  {
    if run != [] {
      hide Agree, Apply;
      StepSound(w, run[0]);
      StepForward(w, run[0], x);
      GoneForGood(Apply(w, run[0]), run[1..], w1, x);
    }
  }

  lemma {:induction false} OverdueLeaves(w: World, run: seq<Op>, w1: World, x: nat)
    requires Sound(w) && Runs(w, run, w1) && Overdue(w, x) && x in w1.dd.wr.fifo
    ensures Calls(run) < Distance(w.dd, Pos(w, x))
    decreases |run|
  {
    if run == [] {
      UntilWritesBound(w.dd);
      ProductNotNegative(Pos(w, x), Round(w.dd.tun));
    } else {
      WrTracked(w.dd);
      hide Agree, Apply, Distance;
      var w2 := Apply(w, run[0]);
      StepSound(w, run[0]);
      StepForward(w, run[0], x);
      if x !in w2.dd.wr.fifo {
        GoneForGood(w2, run[1..], w1, x);
        assert false;
      }
      ExpiryKept(w, run[0], x);
      StepCloser(w, run[0], x);
      OverdueLeaves(w2, run[1..], w1, x);
    }
  }

  lemma RoundsCover(dd: DD, k: nat)
    requires dd.starved <= dd.tun.writesStarved
    ensures Distance(dd, k) <= Rounds(dd.tun, k + 1)
  {
    UntilWritesBound(dd);
    assert (k + 1) * Round(dd.tun) == k * Round(dd.tun) + Round(dd.tun);
  }

  /** The latency bound: an expired write at position k of the FIFO has left after
      (k + 1) * ((writes_starved + 1) * fifo_batch + 1) dispatch calls, whatever is added or
      merged meanwhile. */
  lemma {:induction false} ExpiredWriteLeaves(w: World, run: seq<Op>, w1: World, x: nat)
    requires Sound(w) && Runs(w, run, w1) && Overdue(w, x)
    requires Calls(run) >= Rounds(w.dd.tun, Pos(w, x) + 1)
    ensures x !in w1.dd.wr.fifo
  {
    hide Runs;
    assert x in w.dd.wr.fifo;
    hide *;
    SoundStarved(w);
    if x in w1.dd.wr.fifo {
      OverdueLeaves(w, run, w1, x);
      RoundsCover(w.dd, Pos(w, x));
    }
  }

  lemma SoundStarved(w: World)
    requires Sound(w)
    ensures w.dd.starved <= w.dd.tun.writesStarved
  {
    hide SideOk;
  }
}

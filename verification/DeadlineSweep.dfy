/** A batch is a one-way sweep. */
module DeadlineSweep {
  import opened Options
  import opened Lists
  import opened Deadline
  import opened DeadlineSteps
  import opened DeadlineTheorems

  // ----- the next request -----

  /** Of the requests `l`, `next` is the one with the least sector above `s`; None if none is above. */
  predicate NextAbove(sector: map<nat, nat>, l: seq<nat>, s: nat, next: Option<nat>) {
    match next
    case None => forall x :: x in l && x in sector ==> sector[x] <= s
    case Some(n) =>
      && n in l && n in sector && s < sector[n]
      && forall x :: x in l && x in sector && s < sector[x] ==> sector[n] <= sector[x]
  }

  lemma LatterIs(sector: map<nat, nat>, l: seq<nat>, r: nat)
    requires r in l && (forall x :: x in l ==> x in sector) && Ascending(sector, l)
    ensures NextAbove(sector, l, sector[r], Latter(l, r))
  {
    hide Ascending;
    var k := Index(l, r);
    forall x | x in l
      ensures if k + 1 < |l| then sector[r] < sector[x] ==> sector[l[k + 1]] <= sector[x] else sector[x] <= sector[r]
    {
      Grows(sector, l, Index(l, x), k);
      if k + 1 < |l| { Grows(sector, l, k + 1, Index(l, x)); }
    }
    if k + 1 < |l| { Grows(sector, l, k, k + 1); }
  }

  lemma Grows(sector: map<nat, nat>, l: seq<nat>, i: nat, j: nat)
    requires (forall x :: x in l ==> x in sector) && Ascending(sector, l) && i < |l| && j < |l|
    ensures i < j <==> sector[l[i]] < sector[l[j]]
    ensures i <= j <==> sector[l[i]] <= sector[l[j]]
  {
  }

  lemma SideFacts(dd: DD, d: Dir)
    requires Agree(dd)
    ensures var s := Get(dd, d);
            && (forall x :: x in s.sort <==> x in s.fifo) && (forall x :: x in s.fifo ==> x in dd.sector)
            && NoDup(s.sort) && Ascending(dd.sector, s.sort) && (s.next.Some? ==> s.next.value in s.sort)
  {
    hide ByExpiry, Ascending, NoDup;
  }

  /** Moving a request to the dispatch queue points next_rq at the next higher sector of its direction,
      and the other direction is left without. */
  lemma MovedNext(dd: DD, d: Dir, r: nat)
    requires Agree(dd) && r in Get(dd, d).sort
    ensures r in dd.sector
    ensures
      var dd1 := MoveRequest(dd, d, r);
      && Get(dd1, Other(d)).next == None
      && NextAbove(dd.sector, Get(dd1, d).fifo, dd.sector[r], Get(dd1, d).next)
  {
    SideFacts(dd, d);
    var l := Get(dd, d).sort;
    LatterIs(dd.sector, l, r);
    FifoWithout(dd, d, r);
    AfterLatter(dd, d, r);
    hide Agree, Latter, MoveRequest, Ascending, Get;
    LatterOther(l, r);
  }

  lemma AfterLatter(dd: DD, d: Dir, r: nat)
    requires r in Get(dd, d).sort && r in Get(dd, d).fifo && NoDup(Get(dd, d).sort)
    ensures Get(MoveRequest(dd, d, r), d).next == Latter(Get(dd, d).sort, r)
    ensures Get(MoveRequest(dd, d, r), Other(d)).next == None
    ensures Get(MoveRequest(dd, d, r), d).sort == Remove(Get(dd, d).sort, r)
  {
    hide Latter, Remove;
    LatterOther(Get(dd, d).sort, r);
  }

  lemma FifoWithout(dd: DD, d: Dir, r: nat)
    requires Agree(dd) && r in Get(dd, d).sort
    ensures forall x :: x in Get(MoveRequest(dd, d, r), d).fifo <==> x in Get(dd, d).fifo && x != r
  {
    hide Ascending, ByExpiry, Remove, Latter;
    RemoveFacts(Get(dd, d).fifo, r);
  }

  /** Every call that finds something queued sends one request to the driver and leaves next_rq at the next
      higher sector of the same direction; None means that no queued request lies above. */
  lemma AfterDispatch(dd: DD, now: int)
    requires Agree(dd) && (dd.rd.fifo != [] || dd.wr.fifo != [])
    ensures
      var dd1 := Dispatch(dd, now);
      exists d, r :: r in Get(dd, d).fifo && r in dd.sector
        && dd1.dispatched == dd.dispatched + [r]
        && NextAbove(dd1.sector, Get(dd1, d).fifo, dd.sector[r], Get(dd1, d).next)
        && Get(dd1, Other(d)).next == None
        && (forall x :: x in Get(dd1, d).fifo <==> x in Get(dd, d).fifo && x != r)
        && Get(dd1, Other(d)).fifo == Get(dd, Other(d)).fifo
  {
    var d, r := Taken(dd, now);
    MovedNext(dd, d, r);
    FifoWithout(dd, d, r);
    MoveOthers(dd, d, r);
    hide SideOk, NextAbove, MoveRequest, MakePlan;
  }

  lemma Taken(dd: DD, now: int) returns (d: Dir, r: nat)
    requires Agree(dd) && (dd.rd.fifo != [] || dd.wr.fifo != [])
    ensures r in Get(dd, d).sort && r in Get(dd, d).fifo
    ensures
      var dd1, dd2 := Dispatch(dd, now), MoveRequest(dd, d, r);
      dd1.rd == dd2.rd && dd1.wr == dd2.wr && dd1.sector == dd.sector && dd1.dispatched == dd.dispatched + [r]
  {
    SideFacts(dd, READ);
    SideFacts(dd, WRITE);
    hide SideOk;
    match MakePlan(dd)
    case Continue(e, x) => d, r := e, x;
    case NewBatch(e) => d, r := e, Pick(dd, e, now);
  }

  /** When a request is absorbed by another and was next, the one with the next higher sector is next. */
  lemma AbsorbedNext(dd: DD, d: Dir, r: nat, n: nat)
    requires Agree(dd) && r in Get(dd, d).fifo && n in Get(dd, d).fifo && r != n
    ensures n in dd.sector
    ensures
      var dd1 := MergedRequests(dd, d, r, n);
      && Get(dd1, Other(d)) == Get(dd, Other(d))
      && if Get(dd, d).next == Some(n) then NextAbove(dd.sector, Get(dd, d).fifo, dd.sector[n], Get(dd1, d).next)
         else Get(dd1, d).next == Get(dd, d).next
  {
    SideFacts(dd, d);
    LatterIs(dd.sector, Get(dd, d).sort, n);
    MergeFrame(dd, d, r, n);
    hide Agree, Latter, MergedRequests, Ascending, Get;
  }

  lemma MergeFrame(dd: DD, d: Dir, r: nat, n: nat)
    requires Agree(dd) && r in Get(dd, d).fifo && n in Get(dd, d).fifo && r != n && n in Get(dd, d).sort
    ensures
      var dd1 := MergedRequests(dd, d, r, n);
      && Get(dd1, Other(d)) == Get(dd, Other(d))
      && Get(dd1, d).next == if Get(dd, d).next == Some(n) then Latter(Get(dd, d).sort, n) else Get(dd, d).next
  {
    hide SideOk, Latter, Remove, MoveBehind;
  }

  // ----- the batch -----

  /** Dispatch calls and waiting, nothing else, and every call goes on with the batch. */
  predicate Continues(w: World, run: seq<Op>)
    requires Sound(w)
    decreases |run|
  {
    run == [] ||
    ((run[0].Wait? || (run[0].Call? && MakePlan(w.dd).Continue?))
     && (StepSound(w, run[0]); Continues(Apply(w, run[0]), run[1..])))
  }

  /** The batch stands before place `k` of the sorted list `l`, with `left` calls to go. */
  predicate Before(dd: DD, d: Dir, l: seq<nat>, k: nat, left: nat)
    requires k <= |l|
  {
    && Get(dd, Other(d)).next == None
    && Get(dd, d).next == (if k < |l| then Some(l[k]) else None)
    && |Get(dd, d).sort| >= |l| - k && Get(dd, d).sort[|Get(dd, d).sort| - (|l| - k)..] == l[k..]
    && Left(dd) == left
  }

  lemma BeforePlan(dd: DD, d: Dir, l: seq<nat>, k: nat, left: nat)
    requires k <= |l| && Before(dd, d, l, k, left)
    ensures MakePlan(dd).Continue? <==> left > 0 && k < |l|
    ensures left > 0 && k < |l| ==> MakePlan(dd) == Continue(d, l[k])
  {
  }

  /** Taking out the first of a common suffix leaves the rest of it. */
  lemma SuffixWithout(m: seq<nat>, l: seq<nat>, k: nat)
    requires NoDup(m) && k < |l| && |m| >= |l| - k && m[|m| - (|l| - k)..] == l[k..]
    ensures l[k] in m && Latter(m, l[k]) == if k + 1 < |l| then Some(l[k + 1]) else None
    ensures |Remove(m, l[k])| == |m| - 1 && Remove(m, l[k])[|m| - (|l| - k)..] == l[k + 1..]
  {
    var i := |m| - (|l| - k);
    assert m[i] == m[i..][0] == l[k..][0] == l[k];
    IndexUnique(m, l[k], i);
    if k + 1 < |l| {
      assert m[i + 1] == m[i..][1] == l[k..][1] == l[k + 1];
    }
    assert m[i + 1..] == m[i..][1..] == l[k..][1..] == l[k + 1..];
    assert Remove(m, l[k])[i..] == m[i + 1..];
  }

  lemma Continued(dd: DD, now: int, d: Dir, r: nat)
    requires Agree(dd) && MakePlan(dd) == Continue(d, r)
    ensures
      var dd1 := Dispatch(dd, now);
      && r in Get(dd, d).sort
      && Get(dd1, Other(d)).next == None && Get(dd1, d).next == Latter(Get(dd, d).sort, r)
      && Get(dd1, d).sort == Remove(Get(dd, d).sort, r)
      && dd1.dispatched == dd.dispatched + [r] && Left(dd1) == Left(dd) - 1 && dd1.sector == dd.sector
  {
    NextQueued(dd, d, r);
    AfterLatter(dd, d, r);
    hide Agree, Latter, Remove, MoveRequest;
    MovedLeft(dd, d, r);
  }

  lemma NextQueued(dd: DD, d: Dir, r: nat)
    requires Agree(dd) && MakePlan(dd) == Continue(d, r)
    ensures r in Get(dd, d).sort && r in Get(dd, d).fifo && NoDup(Get(dd, d).sort)
  {
    SideFacts(dd, d);
    hide Agree, NoDup;
  }

  lemma MovedLeft(dd: DD, d: Dir, r: nat)
    requires Agree(dd) && MakePlan(dd) == Continue(d, r) && r in Get(dd, d).sort && r in Get(dd, d).fifo
    ensures Left(Dispatch(dd, 0)) == Left(dd) - 1
    ensures MoveRequest(dd, d, r).sector == dd.sector && MoveRequest(dd, d, r).tun == dd.tun
  {
    hide Agree, MoveRequest;
  }

  lemma CallMoves(dd: DD, now: int, d: Dir, l: seq<nat>, k: nat, left: nat)
    requires Agree(dd) && k < |l| && left > 0 && Before(dd, d, l, k, left)
    ensures Before(Dispatch(dd, now), d, l, k + 1, left - 1)
    ensures Dispatch(dd, now).dispatched == dd.dispatched + [l[k]]
  {
    hide *;
    BeforePlan(dd, d, l, k, left);
    Continued(dd, now, d, l[k]);
    SideFacts(dd, d);
    BeforeStep(dd, Dispatch(dd, now), d, l, k, left);
  }

  lemma BeforeStep(dd: DD, dd1: DD, d: Dir, l: seq<nat>, k: nat, left: nat)
    requires k < |l| && left > 0 && Before(dd, d, l, k, left) && NoDup(Get(dd, d).sort) && l[k] in Get(dd, d).sort
    requires Get(dd1, Other(d)).next == None && Get(dd1, d).next == Latter(Get(dd, d).sort, l[k])
    requires Get(dd1, d).sort == Remove(Get(dd, d).sort, l[k]) && Left(dd1) == Left(dd) - 1
    ensures Before(dd1, d, l, k + 1, left - 1)
  {
    hide Get, Left, NoDup, Remove, Latter;
    SuffixWithout(Get(dd, d).sort, l, k);
  }

  function Count(op: Op): nat { if op.Call? then 1 else 0 }

  lemma CountIs(op: Op)
    ensures Count(op) == if op.Call? then 1 else 0
  {
  }

  lemma Kinds(w: World, op: Op)
    requires Agree(w.dd) && (op.Wait? || op.Call?)
    ensures Enabled(w, op) && (op.Wait? ==> Apply(w, op).dd == w.dd)
  {
    hide SideOk;
  }

  lemma StepTakes(w: World, op: Op, d: Dir, l: seq<nat>, k: nat, left: nat)
    requires Sound(w) && k <= |l| && Before(w.dd, d, l, k, left)
    requires op.Wait? || (op.Call? && MakePlan(w.dd).Continue?)
    ensures Enabled(w, op) && Count(op) <= left && k + Count(op) <= |l|
    ensures Before(Apply(w, op).dd, d, l, k + Count(op), left - Count(op))
    ensures Apply(w, op).dd.dispatched == w.dd.dispatched + l[k..k + Count(op)]
  {
    hide *;
    SoundAgrees(w);
    CountIs(op);
    Kinds(w, op);
    if op.Call? {
      ApplyCall(w);
      BeforePlan(w.dd, d, l, k, left);
      CallMoves(w.dd, w.now, d, l, k, left);
    }
  }

  lemma CallCount(run: seq<Op>)
    ensures Calls(run) == if run == [] then 0 else Count(run[0]) + Calls(run[1..])
  {
  }

  /** The calls of a run that only goes on with the batch take one piece out of the sorted list. */
  lemma {:induction false} TakesPiece(w: World, run: seq<Op>, w1: World, d: Dir, l: seq<nat>, k: nat, left: nat)
    requires Sound(w) && Runs(w, run, w1) && Continues(w, run) && k <= |l| && Before(w.dd, d, l, k, left)
    ensures Calls(run) <= left && k + Calls(run) <= |l|
    ensures Before(w1.dd, d, l, k + Calls(run), left - Calls(run))
    ensures w1.dd.dispatched == w.dd.dispatched + l[k..k + Calls(run)]
    decreases |run|
  {
    hide Agree, Timely, Before, Apply, Enabled, Count;
    CallCount(run);
    if run != [] {
      StepSound(w, run[0]);
      StepTakes(w, run[0], d, l, k, left);
      TakesPiece(Apply(w, run[0]), run[1..], w1, d, l, k + Count(run[0]), left - Count(run[0]));
      Joined(w.dd.dispatched, l, k, k + Count(run[0]), k + Calls(run));
    }
  }

  lemma Joined(a: seq<nat>, l: seq<nat>, i: nat, j: nat, k: nat)
    requires i <= j <= k <= |l|
    ensures a + l[i..j] + l[j..k] == a + l[i..k]
  {
  }

  // ----- in terms of sectors -----

  /** How many of `l` lie at sector `s` or above. */
  function AtOrAbove(sector: map<nat, nat>, l: seq<nat>, s: nat): nat {
    if l == [] then 0
    else (if l[0] in sector && s <= sector[l[0]] then 1 else 0) + AtOrAbove(sector, l[1..], s)
  }

  lemma {:induction false} CountIsSuffix(sector: map<nat, nat>, l: seq<nat>, k: nat)
    requires (forall x :: x in l ==> x in sector) && Ascending(sector, l) && k < |l|
    ensures AtOrAbove(sector, l, sector[l[k]]) == |l| - k
    decreases |l|
  {
    var t := l[1..];
    assert forall i :: 0 <= i < |t| ==> t[i] == l[i + 1];
    assert Ascending(sector, t);
    hide Ascending;
    Grows(sector, l, k, 0);
    if k > 0 {
      CountIsSuffix(sector, t, k - 1);
    } else {
      AllAbove(sector, t, sector[l[0]]);
    }
  }

  lemma {:induction false} AllAbove(sector: map<nat, nat>, l: seq<nat>, s: nat)
    requires forall x :: x in l ==> x in sector && s <= sector[x]
    ensures AtOrAbove(sector, l, s) == |l|
    decreases |l|
  {
    if l != [] {
      AllAbove(sector, l[1..], s);
    }
  }

  lemma StartsBefore(dd: DD, d: Dir, r: nat) returns (k: nat)
    requires Agree(dd) && MakePlan(dd) == Continue(d, r)
    ensures k < |Get(dd, d).sort| && Get(dd, d).sort[k] == r
    ensures Before(dd, d, Get(dd, d).sort, k, Left(dd))
  {
    hide SideOk;
    SideFacts(dd, d);
    k := Index(Get(dd, d).sort, r);
  }

  lemma PieceIs(sector: map<nat, nat>, l: seq<nat>, k: nat, n: nat)
    requires (forall x :: x in l ==> x in sector) && Ascending(sector, l) && 0 < n && k + n <= |l|
    ensures forall x :: x in l[k..k + n] ==> x in l
    ensures Ascending(sector, l[k..k + n])
    ensures forall x :: x in l ==> (x in l[k..k + n] <==> sector[l[k]] <= sector[x] <= sector[l[k + n - 1]])
  {
    var m := l[k..k + n];
    assert forall i :: 0 <= i < n ==> m[i] == l[k + i];
    forall x | x in l ensures x in m <==> sector[l[k]] <= sector[x] <= sector[l[k + n - 1]] {
      hide Ascending;
      var i := Index(l, x);
      Grows(sector, l, k, i);
      Grows(sector, l, i, k + n - 1);
      if k <= i < k + n {
        assert m[i - k] == x;
      }
      if x in m {
        var j := Index(m, x);
        Grows(sector, l, k, k + j);
        Grows(sector, l, k + j, k + n - 1);
      }
    }
  }

  /** Successive calls that go on with the batch dispatch in strictly ascending order of sectors, and they pass
      over no request: everything queued between the first and the last sector is dispatched. */
  lemma SweepSkipsNone(w: World, run: seq<Op>, w1: World, d: Dir, r: nat)
    requires Sound(w) && Runs(w, run, w1) && Continues(w, run) && MakePlan(w.dd) == Continue(d, r)
    requires Calls(run) > 0
    ensures w.dd.dispatched <= w1.dd.dispatched
    ensures
      var out := w1.dd.dispatched[|w.dd.dispatched|..];
      && |out| == Calls(run) && out[0] == r
      && (forall x :: x in out ==> x in Get(w.dd, d).fifo && x in w.dd.sector)
      && Ascending(w.dd.sector, out)
      && forall x :: x in Get(w.dd, d).fifo && x in w.dd.sector ==>
           (x in out <==> w.dd.sector[r] <= w.dd.sector[x] <= w.dd.sector[out[|out| - 1]])
  {
    hide *;
    SoundAgrees(w);
    SideFacts(w.dd, d);
    var k := StartsBefore(w.dd, d, r);
    var l := Get(w.dd, d).sort;
    TakesPiece(w, run, w1, d, l, k, Left(w.dd));
    PieceIs(w.dd.sector, l, k, Calls(run));
    Behind(w.dd.dispatched, l[k..k + Calls(run)]);
  }

  lemma Behind(a: seq<nat>, b: seq<nat>)
    ensures a <= a + b && (a + b)[|a|..] == b
  {
  }

  /** How long the batch goes on: as long as fifo_batch allows and something lies at next_rq or above. */
  lemma BatchExactly(w: World, run: seq<Op>, w1: World, d: Dir, r: nat)
    requires Sound(w) && Runs(w, run, w1) && Continues(w, run) && MakePlan(w.dd) == Continue(d, r)
    ensures r in w.dd.sector
    ensures MakePlan(w1.dd).Continue? <==>
      w.dd.batching + Calls(run) < w.dd.tun.fifoBatch &&
      Calls(run) < AtOrAbove(w.dd.sector, Get(w.dd, d).sort, w.dd.sector[r])
  {
    hide *;
    SoundAgrees(w);
    SideFacts(w.dd, d);
    var k := StartsBefore(w.dd, d, r);
    var l := Get(w.dd, d).sort;
    TakesPiece(w, run, w1, d, l, k, Left(w.dd));
    CountIsSuffix(w.dd.sector, l, k);
    BeforePlan(w1.dd, d, l, k + Calls(run), Left(w.dd) - Calls(run));
    ContinueLeft(w.dd, d, r);
  }

  lemma ContinueLeft(dd: DD, d: Dir, r: nat)
    requires MakePlan(dd) == Continue(d, r)
    ensures Left(dd) == dd.tun.fifoBatch - dd.batching
  {
  }

  // ----- what adding and merging do -----

  /** A new request is queued last, to expire after the tunable of its direction; only requests of the direction
      at the same sector leave, for the dispatch queue. */
  lemma AddIs(dd: DD, d: Dir, r: nat, s: nat, now: int)
    requires Agree(dd) && r !in dd.sector
    ensures
      var dd1 := AddRequest(dd, d, r, s, now);
      && r in dd1.sector && dd1.sector == dd.sector[r := s]
      && r in dd1.expires && dd1.expires[r] == now + (if d == READ then dd.tun.readExpire else dd.tun.writeExpire)
      && Get(dd1, Other(d)).fifo == Get(dd, Other(d)).fifo
      && Get(dd1, d).fifo != [] && Get(dd1, d).fifo[|Get(dd1, d).fifo| - 1] == r
      && (forall x :: x in Get(dd, d).fifo && x in dd.sector ==>
            if dd.sector[x] == s then x !in Get(dd1, d).fifo && x in dd1.dispatched else x in Get(dd1, d).fifo)
      && forall x :: x in Get(dd1, d).fifo ==> x == r || x in Get(dd, d).fifo
  {
    SideFacts(dd, d);
    ClearIs(dd, d, s);
    ClearSectorSorted(dd, d, s);
    var dd1 := ClearSector(dd, d, s);
    JoinIs(dd1, d, r, s, now);
    assert r !in Get(dd, d).fifo;
    hide Agree, ClearSector, JoinFifo, Insert;
    InsertIs(JoinFifo(dd1, d, r, s, now), d, r);
  }

  lemma ClearIs(dd: DD, d: Dir, s: nat)
    requires Agree(dd) && forall x :: x in Get(dd, d).sort <==> x in Get(dd, d).fifo
    requires forall x :: x in Get(dd, d).sort ==> x in dd.sector
    ensures
      var dd1 := ClearSector(dd, d, s);
      && Get(dd1, Other(d)).fifo == Get(dd, Other(d)).fifo && dd1.expires == dd.expires && dd1.tun == dd.tun
      && (forall x :: x in Get(dd, d).fifo && dd.sector[x] == s ==> x in dd1.dispatched)
      && forall x :: x in Get(dd1, d).fifo <==> x in Get(dd, d).fifo && dd.sector[x] != s
  {
    SideFacts(dd, d);
    var alias := Find(dd.sector, Get(dd, d).sort, s);
    if alias.Some? {
      FifoWithout(dd, d, alias.value);
      Alone(dd, d, alias.value);
      MoveOthers(dd, d, alias.value);
      hide Agree, MoveRequest, Ascending, NoDup;
    }
  }

  /** No other request of the direction is at the sector of `r`. */
  lemma Alone(dd: DD, d: Dir, r: nat)
    requires Agree(dd) && r in Get(dd, d).sort
    ensures r in dd.sector && forall x :: x in Get(dd, d).fifo ==> x in dd.sector
    ensures forall x :: x in Get(dd, d).fifo && x != r ==> dd.sector[x] != dd.sector[r]
  {
    SideFacts(dd, d);
    hide Agree;
    forall x | x in Get(dd, d).fifo && x != r ensures dd.sector[x] != dd.sector[r] {
      var l := Get(dd, d).sort;
      Grows(dd.sector, l, Index(l, x), Index(l, r));
      Grows(dd.sector, l, Index(l, r), Index(l, x));
    }
  }

  lemma MoveOthers(dd: DD, d: Dir, r: nat)
    requires r in Get(dd, d).sort && r in Get(dd, d).fifo
    ensures Get(MoveRequest(dd, d, r), Other(d)).fifo == Get(dd, Other(d)).fifo
    ensures MoveRequest(dd, d, r).dispatched == dd.dispatched + [r]
  {
  }

  lemma JoinIs(dd: DD, d: Dir, r: nat, s: nat, now: int)
    ensures
      var dd1 := JoinFifo(dd, d, r, s, now);
      && dd1.sector == dd.sector[r := s] && dd1.dispatched == dd.dispatched
      && dd1.expires == dd.expires[r := now + (if d == READ then dd.tun.readExpire else dd.tun.writeExpire)]
      && Get(dd1, d).sort == Get(dd, d).sort && Get(dd1, d).fifo == Get(dd, d).fifo + [r]
      && Get(dd1, Other(d)) == Get(dd, Other(d))
  {
  }

  lemma InsertIs(dd: DD, d: Dir, r: nat)
    requires r in dd.sector && forall x :: x in Get(dd, d).sort ==> x in dd.sector
    ensures
      var dd1 := Insert(dd, d, r);
      && dd1.sector == dd.sector && dd1.dispatched == dd.dispatched && dd1.expires == dd.expires
      && Get(dd1, d).fifo == Get(dd, d).fifo && Get(dd1, Other(d)) == Get(dd, Other(d))
  {
  }

  /** After a front merge the request stands at its new sector and keeps its expiry and its place; another
      request of the direction that was there leaves for the dispatch queue. */
  lemma FrontIs(dd: DD, d: Dir, r: nat, s: nat)
    requires Agree(dd) && r in Get(dd, d).sort
    ensures
      var dd1 := FrontMerged(dd, d, r, s);
      && dd1.sector == dd.sector[r := s] && dd1.expires == dd.expires
      && Get(dd1, Other(d)).fifo == Get(dd, Other(d)).fifo
      && forall x :: x in Get(dd, d).fifo && x in dd.sector ==>
           if x != r && dd.sector[x] == s then x !in Get(dd1, d).fifo && x in dd1.dispatched else x in Get(dd1, d).fifo
  {
    SideFacts(dd, d);
    var dd1 := Put(dd, d, Get(dd, d).(sort := Remove(Get(dd, d).sort, r)));
    Lifted(dd, d, r);
    ClearSectorSorted(dd1, d, s);
    hide Agree, Insert, Remove, Ascending;
    ClearLifted(dd, dd1, d, r, s);
    InsertIs(ClearSector(dd1, d, s).(sector := dd.sector[r := s]), d, r);
  }

  lemma Lifted(dd: DD, d: Dir, r: nat)
    requires Agree(dd) && r in Get(dd, d).sort
    ensures
      var dd1 := Put(dd, d, Get(dd, d).(sort := Remove(Get(dd, d).sort, r)));
      && dd1 == dd.(rd := dd1.rd, wr := dd1.wr) && Get(dd1, Other(d)) == Get(dd, Other(d))
      && Get(dd1, d).fifo == Get(dd, d).fifo && NoDup(Get(dd1, d).sort) && NoDup(Get(dd1, d).fifo)
      && (forall x :: x in Get(dd1, d).sort <==> x in Get(dd, d).sort && x != r)
  {
    SideFacts(dd, d);
    Members(dd, d);
    RemoveFacts(Get(dd, d).sort, r);
    hide SideOk, Remove;
  }

  lemma ClearLifted(dd: DD, dd1: DD, d: Dir, r: nat, s: nat)
    requires Agree(dd) && r in Get(dd, d).sort && Get(dd1, Other(d)) == Get(dd, Other(d))
    requires dd1 == dd.(rd := dd1.rd, wr := dd1.wr) && Get(dd1, d).fifo == Get(dd, d).fifo
    requires NoDup(Get(dd1, d).sort) && NoDup(Get(dd1, d).fifo)
    requires forall x :: x in Get(dd1, d).sort <==> x in Get(dd, d).sort && x != r
    requires forall x :: x in Get(dd, d).sort <==> x in Get(dd, d).fifo
    requires forall x :: x in Get(dd, d).sort ==> x in dd.sector
    ensures
      var dd2 := ClearSector(dd1, d, s);
      && Get(dd2, Other(d)).fifo == Get(dd, Other(d)).fifo && dd2.expires == dd.expires
      && forall x :: x in Get(dd, d).fifo ==>
           if x != r && dd.sector[x] == s then x !in Get(dd2, d).fifo && x in dd2.dispatched else x in Get(dd2, d).fifo
  {
    var alias := Find(dd1.sector, Get(dd1, d).sort, s);
    if alias.Some? {
      Alone(dd, d, alias.value);
      MoveOthers(dd1, d, alias.value);
      MovedFifo(dd1, d, alias.value);
      RemoveFacts(Get(dd1, d).fifo, alias.value);
    }
    hide Agree, MoveRequest, Remove, NoDup;
  }

  lemma MovedFifo(dd: DD, d: Dir, r: nat)
    requires r in Get(dd, d).sort && r in Get(dd, d).fifo
    ensures Get(MoveRequest(dd, d, r), d).fifo == Remove(Get(dd, d).fifo, r)
  {
    hide Remove, Latter;
  }

  /** Of two requests that are merged one is left, and it expires when the first of them would have. */
  lemma MergeIs(dd: DD, d: Dir, r: nat, n: nat)
    requires Agree(dd) && r in Get(dd, d).fifo && n in Get(dd, d).fifo && r != n
    ensures r in dd.expires && n in dd.expires
    ensures
      var dd1 := MergedRequests(dd, d, r, n);
      && dd1.dispatched == dd.dispatched && dd1.sector == dd.sector
      && dd1.expires == dd.expires[r := if dd.expires[n] < dd.expires[r] then dd.expires[n] else dd.expires[r]]
      && Get(dd1, Other(d)) == Get(dd, Other(d))
      && forall x :: x in Get(dd1, d).fifo <==> x in Get(dd, d).fifo && x != n
  {
    Members(dd, d);
    MergedFifo(dd, d, r, n);
    hide Agree, Remove, MoveBehind, RemoveFrom;
    MergedRest(dd, d, r, n);
  }

  lemma MergedRest(dd: DD, d: Dir, r: nat, n: nat)
    requires Agree(dd) && r in Get(dd, d).fifo && n in Get(dd, d).fifo && r != n
    requires r in dd.expires && n in dd.expires
    ensures
      var dd1 := MergedRequests(dd, d, r, n);
      && dd1.dispatched == dd.dispatched && dd1.sector == dd.sector
      && dd1.expires == dd.expires[r := if dd.expires[n] < dd.expires[r] then dd.expires[n] else dd.expires[r]]
      && Get(dd1, Other(d)) == Get(dd, Other(d))
  {
    hide SideOk, RemoveFrom, Remove, MoveBehind;
    assert dd.expires == dd.expires[r := dd.expires[r]];
  }

  lemma MergedFifo(dd: DD, d: Dir, r: nat, n: nat)
    requires Agree(dd) && r in Get(dd, d).fifo && n in Get(dd, d).fifo && r != n
    ensures forall x :: x in Get(MergedRequests(dd, d, r, n), d).fifo <==> x in Get(dd, d).fifo && x != n
  {
    hide *;
    Members(dd, d);
    if dd.expires[n] < dd.expires[r] {
      SurvivorMoved(dd, d, r, n);
      RemoveFacts(MoveBehind(Get(dd, d).fifo, r, n), n);
    } else {
      SurvivorStays(dd, d, r, n);
      RemoveFacts(Get(dd, d).fifo, n);
    }
  }

  lemma SurvivorStays(dd: DD, d: Dir, r: nat, n: nat)
    requires Agree(dd) && r in Get(dd, d).fifo && n in Get(dd, d).fifo && r != n
    requires r in dd.expires && n in dd.expires && dd.expires[n] >= dd.expires[r]
    ensures Get(MergedRequests(dd, d, r, n), d).fifo == Remove(Get(dd, d).fifo, n)
  {
    Members(dd, d);
    hide SideOk, Remove, Latter, MoveBehind;
  }

  lemma SurvivorMoved(dd: DD, d: Dir, r: nat, n: nat)
    requires Agree(dd) && r in Get(dd, d).fifo && n in Get(dd, d).fifo && r != n
    requires r in dd.expires && n in dd.expires && dd.expires[n] < dd.expires[r]
    ensures n in Remove(Get(dd, d).fifo, r)
    ensures
      var m := MoveBehind(Get(dd, d).fifo, r, n);
      && NoDup(m) && (forall x :: x in m <==> x in Get(dd, d).fifo)
      && Get(MergedRequests(dd, d, r, n), d).fifo == Remove(m, n)
  {
    SideHere(dd, d);
    Members(dd, d);
    EarlierSide(dd.sector, dd.expires, Get(dd, d), r, n);
    FifoUnique(dd.sector, dd.expires[r := dd.expires[n]], Get(dd, d).(fifo := MoveBehind(Get(dd, d).fifo, r, n)));
    hide SideOk, Remove, MoveBehind, Latter;
  }

  lemma SideHere(dd: DD, d: Dir)
    requires Agree(dd)
    ensures SideOk(dd.sector, dd.expires, Get(dd, d), {})
  {
    hide SideOk;
  }

  lemma FifoUnique(sector: map<nat, nat>, expires: map<nat, int>, s: Side)
    requires SideOk(sector, expires, s, {})
    ensures NoDup(s.fifo)
  {
  }
}

/** The one-way sort of elv_dispatch_sort, block/elevator.c. */
module DispatchSort {
  // A request joins the dispatch list from the back, sorted in the one-way order that starts at the
  // end of the request served last.

  import opened Lists

  /** `barrier` stands for REQ_SOFTBARRIER | REQ_HARDBARRIER, `started` for REQ_STARTED. */
  datatype Req = Req(id: nat, sector: nat, length: nat, write: bool, discard: bool, barrier: bool, started: bool)

  predicate Stop(r: Req) { r.barrier || r.started }

  // ----- the scan -----

  predicate Alike(a: Req, b: Req) { a.write == b.write && a.discard == b.discard }

  /** Whether the scan from the back goes on past `pos`. */
  predicate Passes(boundary: nat, rq: Req, pos: Req) {
    && rq.discard == pos.discard
    && rq.write == pos.write
    && !Stop(pos)
    && (if rq.sector >= boundary
        then pos.sector < boundary || rq.sector < pos.sector
        else pos.sector < boundary && rq.sector < pos.sector)
  }

  /** Where the scan stops. */
  function Slot(boundary: nat, list: seq<Req>, rq: Req): (k: nat)
    ensures k <= |list|
    ensures forall i :: k <= i < |list| ==> Passes(boundary, rq, list[i])
    ensures k > 0 ==> !Passes(boundary, rq, list[k - 1])
  {
    if list == [] then 0
    else if Passes(boundary, rq, list[|list| - 1]) then Slot(boundary, list[..|list| - 1], rq)
    else |list|
  }

  function Dispatched(boundary: nat, list: seq<Req>, rq: Req): seq<Req> {
    InsertAt(list, Slot(boundary, list, rq), rq)
  }

  /** The loop of elv_dispatch_sort. */
  method Dispatch(boundary: nat, list: seq<Req>, rq: Req) returns (r: seq<Req>)
    ensures r == Dispatched(boundary, list, rq)
  {
    hide Slot;
    var entry := |list|;
    while entry > 0
      invariant 0 <= entry <= |list|
      invariant Slot(boundary, list, rq) == Slot(boundary, list[..entry], rq)
      decreases entry
    {
      var pos := list[entry - 1];
      assert list[..entry][..entry - 1] == list[..entry - 1];
      if rq.discard != pos.discard {
        break;
      }
      if rq.write != pos.write {
        break;
      }
      if Stop(pos) {
        break;
      }
      if rq.sector >= boundary {
        if pos.sector < boundary {
          entry := entry - 1;
          continue;
        }
      } else {
        if pos.sector >= boundary {
          break;
        }
      }
      if rq.sector >= pos.sector {
        break;
      }
      entry := entry - 1;
    }
    assert entry == Slot(boundary, list[..entry], rq);
    r := InsertAt(list, entry, rq);
  }

  // ----- the one-way order -----

  /** Sectors from the boundary up come first, then those below it. */
  predicate Before(boundary: nat, a: nat, b: nat) {
    if (a >= boundary) == (b >= boundary) then a < b else a >= boundary
  }

  predicate Sorted(boundary: nat, list: seq<Req>) {
    forall i, j :: 0 <= i < j < |list| ==> !Before(boundary, list[j].sector, list[i].sector)
  }

  /** The part at the end of the list that the scan may pass for a request like `rq`. */
  predicate Run(list: seq<Req>, rq: Req) {
    forall i :: 0 <= i < |list| ==> Alike(rq, list[i]) && !Stop(list[i])
  }

  /** Where that part begins. */
  function RunStart(list: seq<Req>, rq: Req): (k: nat)
    ensures k <= |list| && Run(list[k..], rq)
    ensures k > 0 ==> !Alike(rq, list[k - 1]) || Stop(list[k - 1])
  {
    if list == [] then 0
    else if Alike(rq, list[|list| - 1]) && !Stop(list[|list| - 1]) then
      var n := |list| - 1;
      var k := RunStart(list[..n], rq);
      assert list[k..] == list[..n][k..] + [list[n]];
      k
    else |list|
  }

  lemma PassesIsBefore(boundary: nat, rq: Req, pos: Req)
    ensures Passes(boundary, rq, pos) <==>
      Alike(rq, pos) && !Stop(pos) && Before(boundary, rq.sector, pos.sector)
  {
  }

  /** Plain stable insertion, from the front, after everything that is not later. */
  function Inserted(boundary: nat, run: seq<Req>, rq: Req): seq<Req> {
    if run == [] || Before(boundary, rq.sector, run[0].sector) then [rq] + run
    else [run[0]] + Inserted(boundary, run[1..], rq)
  }

  lemma {:induction false} InsertedAt(boundary: nat, run: seq<Req>, rq: Req, k: nat)
    requires k <= |run|
    requires forall i :: 0 <= i < k ==> !Before(boundary, rq.sector, run[i].sector)
    requires k < |run| ==> Before(boundary, rq.sector, run[k].sector)
    ensures Inserted(boundary, run, rq) == InsertAt(run, k, rq)
    decreases |run|
  {
    if k > 0 {
      InsertedAt(boundary, run[1..], rq, k - 1);
      assert [run[0]] + InsertAt(run[1..], k - 1, rq) == InsertAt(run, k, rq);
    }
  }

  /** The scan never goes past a request of another kind, a barrier or a started request. */
  lemma SlotInRun(boundary: nat, list: seq<Req>, rq: Req)
    ensures RunStart(list, rq) <= Slot(boundary, list, rq)
    ensures forall i :: Slot(boundary, list, rq) <= i < |list| ==> Alike(rq, list[i]) && !Stop(list[i])
  {
    var k := RunStart(list, rq);
    if k > 0 {
      assert !Passes(boundary, rq, list[k - 1]);
    }
  }

  /** On a sorted run the scan from the back does what stable insertion from the front does, and
      everything before the run stays where it is. */
  lemma DispatchIsStable(boundary: nat, list: seq<Req>, rq: Req)
    requires Sorted(boundary, list[RunStart(list, rq)..])
    ensures
      var k := RunStart(list, rq);
      Dispatched(boundary, list, rq) == list[..k] + Inserted(boundary, list[k..], rq)
  {
    var k, e := RunStart(list, rq), Slot(boundary, list, rq);
    SlotInRun(boundary, list, rq);
    SlotSplitsRun(boundary, list, rq);
    hide *;
    InsertedAt(boundary, list[k..], rq, e - k);
    InsertInTail(list, k, e, rq);
  }

  lemma InsertInTail(list: seq<Req>, k: nat, e: nat, rq: Req)
    requires k <= e <= |list|
    ensures list[..k] + InsertAt(list[k..], e - k, rq) == InsertAt(list, e, rq)
  {
    assert list[..k] + list[k..][..e - k] == list[..e];
    assert list[k..][e - k..] == list[e..];
  }

  /** In a sorted run, what stands before the slot is not later than `rq`, what follows is. */
  lemma SlotSplitsRun(boundary: nat, list: seq<Req>, rq: Req)
    requires Sorted(boundary, list[RunStart(list, rq)..])
    ensures
      var k := RunStart(list, rq);
      var e := Slot(boundary, list, rq);
      && k <= e
      && (forall i :: 0 <= i < e - k ==> !Before(boundary, rq.sector, list[k..][i].sector))
      && (e < |list| ==> Before(boundary, rq.sector, list[k..][e - k].sector))
  {
    hide *;
    var k, e := RunStart(list, rq), Slot(boundary, list, rq);
    SlotInRun(boundary, list, rq);
    var run := list[k..];
    if k < e {
      RunAlike(list, rq, e - 1);
      PassesIsBefore(boundary, rq, list[e - 1]);
      NotBeforeEarlier(boundary, run, rq, e - k - 1);
    }
    if e < |list| {
      PassesIsBefore(boundary, rq, list[e]);
    }
  }

  /** What is in the run at the tail is like the request and no boundary. */
  lemma RunAlike(list: seq<Req>, rq: Req, i: nat)
    requires RunStart(list, rq) <= i < |list|
    ensures Alike(rq, list[i]) && !Stop(list[i])
  {
    var k := RunStart(list, rq);
    assert list[i] == list[k..][i - k];
  }

  lemma NotBeforeEarlier(boundary: nat, run: seq<Req>, rq: Req, n: nat)
    requires Sorted(boundary, run) && n < |run| && !Before(boundary, rq.sector, run[n].sector)
    ensures forall i :: 0 <= i <= n ==> !Before(boundary, rq.sector, run[i].sector)
  {
    forall i | 0 <= i <= n ensures !Before(boundary, rq.sector, run[i].sector) {
      if i < n {
        assert !Before(boundary, run[n].sector, run[i].sector);
      }
    }
  }

  lemma {:induction false} InsertedSorted(boundary: nat, run: seq<Req>, rq: Req)
    requires Sorted(boundary, run)
    ensures Sorted(boundary, Inserted(boundary, run, rq))
    ensures multiset(Inserted(boundary, run, rq)) == multiset(run) + multiset{rq}
    decreases |run|
  {
    if run == [] || Before(boundary, rq.sector, run[0].sector) {
      InsertedFirst(boundary, run, rq);
    } else {
      hide Before, Sorted;
      var r := Inserted(boundary, run[1..], rq);
      TailSorted(boundary, run);
      InsertedSorted(boundary, run[1..], rq);
      assert run == [run[0]] + run[1..];
      forall i | 0 <= i < |r| ensures !Before(boundary, r[i].sector, run[0].sector) {
        assert r[i] in multiset(run[1..]) + multiset{rq};
        if r[i] != rq {
          assert r[i] in run[1..];
        }
      }
      ConsSorted(boundary, run[0], r);
    }
  }

  lemma InsertedFirst(boundary: nat, run: seq<Req>, rq: Req)
    requires Sorted(boundary, run) && (run == [] || Before(boundary, rq.sector, run[0].sector))
    ensures Inserted(boundary, run, rq) == [rq] + run && Sorted(boundary, [rq] + run)
  {
  }

  lemma TailSorted(boundary: nat, run: seq<Req>)
    requires Sorted(boundary, run) && run != []
    ensures Sorted(boundary, run[1..])
    ensures forall x :: x in run[1..] ==> !Before(boundary, x.sector, run[0].sector)
  {
    hide Before;
  }

  lemma ConsSorted(boundary: nat, x: Req, r: seq<Req>)
    requires Sorted(boundary, r) && forall i :: 0 <= i < |r| ==> !Before(boundary, r[i].sector, x.sector)
    ensures Sorted(boundary, [x] + r)
  {
    hide Before;
  }

  // ----- several requests -----

  function DispatchAll(boundary: nat, list: seq<Req>, rs: seq<Req>): seq<Req>
    decreases |rs|
  {
    if rs == [] then list else DispatchAll(boundary, Dispatched(boundary, list, rs[0]), rs[1..])
  }

  lemma RunOfWhole(list: seq<Req>, rq: Req)
    requires Run(list, rq)
    ensures RunStart(list, rq) == 0
  {
  }

  /** While the boundary stays, requests of one kind that are dispatched to an empty list stand
      there sorted, each of them once. */
  lemma {:induction false} SortsAll(boundary: nat, list: seq<Req>, rs: seq<Req>, like: Req)
    requires Sorted(boundary, list) && Run(list, like) && Run(rs, like)
    ensures Sorted(boundary, DispatchAll(boundary, list, rs))
    ensures multiset(DispatchAll(boundary, list, rs)) == multiset(list) + multiset(rs)
    decreases |rs|
  {
    hide *;
    AllStep(boundary, list, rs);
    if rs != [] {
      RunParts(rs, like);
      DispatchOne(boundary, list, rs[0], like);
      SortsAll(boundary, Dispatched(boundary, list, rs[0]), rs[1..], like);
      assert rs == [rs[0]] + rs[1..];
    } else {
      assert multiset(rs) == multiset{};
    }
  }

  lemma AllStep(boundary: nat, list: seq<Req>, rs: seq<Req>)
    ensures DispatchAll(boundary, list, rs) ==
      if rs == [] then list else DispatchAll(boundary, Dispatched(boundary, list, rs[0]), rs[1..])
  {
  }

  lemma RunParts(rs: seq<Req>, like: Req)
    requires Run(rs, like) && rs != []
    ensures Alike(like, rs[0]) && !Stop(rs[0]) && Run(rs[1..], like)
  {
  }

  lemma DispatchOne(boundary: nat, list: seq<Req>, rq: Req, like: Req)
    requires Sorted(boundary, list) && Run(list, like) && Alike(like, rq) && !Stop(rq)
    ensures
      var next := Dispatched(boundary, list, rq);
      Sorted(boundary, next) && Run(next, like) && multiset(next) == multiset(list) + multiset{rq}
  {
    hide *;
    RunLike(list, like, rq);
    WholeRun(boundary, list, rq);
    InsertedSorted(boundary, list, rq);
    InsertedRun(boundary, list, rq, like);
  }

  lemma RunLike(list: seq<Req>, like: Req, rq: Req)
    requires Run(list, like) && Alike(like, rq)
    ensures Run(list, rq)
  {
  }

  lemma WholeRun(boundary: nat, list: seq<Req>, rq: Req)
    requires Sorted(boundary, list) && Run(list, rq)
    ensures Dispatched(boundary, list, rq) == Inserted(boundary, list, rq)
  {
    hide *;
    RunOfWhole(list, rq);
    assert list[0..] == list;
    DispatchIsStable(boundary, list, rq);
  }

  lemma {:induction false} InsertedRun(boundary: nat, list: seq<Req>, rq: Req, like: Req)
    requires Run(list, like) && Alike(like, rq) && !Stop(rq)
    ensures Run(Inserted(boundary, list, rq), like)
    decreases |list|
  {
    if list != [] {
      InsertedRun(boundary, list[1..], rq, like);
    }
  }

  /** When the driver takes the first request of a sorted run, the boundary moves to its end; the
      others are sorted from there too, unless one of them starts inside it. */
  lemma SweepGoesOn(boundary: nat, run: seq<Req>)
    requires run != [] && Sorted(boundary, run)
    requires forall i :: 0 < i < |run| ==> !(run[0].sector <= run[i].sector < run[0].sector + run[0].length)
    ensures Sorted(run[0].sector + run[0].length, run[1..])
  {
    var b := run[0].sector + run[0].length;
    forall i, j | 0 <= i < j < |run[1..]| ensures !Before(b, run[1..][j].sector, run[1..][i].sector) {
      assert !Before(boundary, run[j + 1].sector, run[i + 1].sector);
      assert !Before(boundary, run[i + 1].sector, run[0].sector);
      assert !Before(boundary, run[j + 1].sector, run[0].sector);
    }
  }
}

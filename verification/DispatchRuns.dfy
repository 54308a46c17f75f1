/** The dispatch list and its one-way sort over runs of the whole block layer. */
module DispatchRuns {
  import opened Options
  import opened Lists
  import opened DispatchSort

  // ----- the list and what happens to it -----

  /** q->queue_head, q->end_sector and q->boundary_rq. */
  datatype State = State(list: seq<Req>, endSector: nat, boundary: Option<nat>)

  /** `Sort` is elv_dispatch_sort and `AddTail` elv_dispatch_add_tail; `Mark` is what __elv_add_request does
      for a barrier before the elevator is drained; `Back`, `Front` and `Requeue` are the insertions of
      elv_insert; `Fetch` is elv_next_request on the head, and `Leave` takes an entry off the list. */
  datatype Event =
    | Sort(rq: Req)
    | AddTail(rq: Req)
    | Mark(rq: Req)
    | Back(rq: Req)
    | Front(rq: Req)
    | Requeue(rq: Req, pos: nat)
    | Fetch
    | Leave(pos: nat)

  function End(r: Req): nat { r.sector + r.length }

  predicate Moves(s: State)
    requires s.list != []
  {
    s.boundary == None || s.boundary == Some(s.list[0].id)
  }

  /** What a scheduler dispatches has none of the flags, and nothing new is started; only a started request
      leaves the list, or a barrier at its head. */
  predicate Enabled(s: State, e: Event) {
    match e
    case Sort(rq) => !Stop(rq)
    case AddTail(rq) => !Stop(rq)
    case Back(rq) => !rq.started
    case Front(rq) => !rq.started
    case Requeue(_, pos) => pos <= |s.list|
    case Fetch => s.list != []
    case Leave(pos) => pos < |s.list| && (s.list[pos].started || (pos == 0 && s.list[0].barrier))
    case _ => true
  }

  function Apply(s: State, e: Event): State
    requires Enabled(s, e)
  {
    match e
    case Sort(rq) => s.(list := Dispatched(s.endSector, s.list, rq))
    case AddTail(rq) => State(s.list + [rq], End(rq), Some(rq.id))
    case Mark(rq) => s.(endSector := End(rq), boundary := Some(rq.id))
    case Back(rq) => s.(list := s.list + [rq.(barrier := true)])
    case Front(rq) => s.(list := [rq.(barrier := true)] + s.list)
    case Requeue(rq, pos) => s.(list := InsertAt(s.list, pos, rq.(barrier := true, started := false)))
    case Fetch =>
      var h := s.list[0];
      State(s.list[0 := h.(started := true)], if Moves(s) then End(h) else s.endSector,
            if Moves(s) then None else s.boundary)
    case Leave(pos) => s.(list := s.list[..pos] + s.list[pos + 1..])
  }

  /** A started request stands behind others that stop the scan, only. */
  predicate Stacked(list: seq<Req>) {
    forall i, j :: 0 <= i < j < |list| && list[j].started ==> Stop(list[i])
  }

  lemma EventStacked(s: State, e: Event)
    requires Stacked(s.list) && Enabled(s, e)
    ensures Stacked(Apply(s, e).list)
  {
    hide Slot, InsertAt;
    match e
    case Sort(rq) =>
      SlotInRun(s.endSector, s.list, rq);
      StackedInsert(s.list, Slot(s.endSector, s.list, rq), rq);
    case Requeue(rq, pos) => StackedInsert(s.list, pos, rq.(barrier := true, started := false));
    case _ =>
  }

  lemma StackedInsert(list: seq<Req>, k: nat, x: Req)
    requires Stacked(list) && k <= |list| && !x.started
    requires Stop(x) || forall i :: k <= i < |list| ==> !Stop(list[i])
    ensures Stacked(InsertAt(list, k, x))
  {
    var l := InsertAt(list, k, x);
    assert forall i :: 0 <= i < |l| ==> l[i] == if i < k then list[i] else if i == k then x else list[i - 1];
  }

  // ----- the run at the tail -----

  /** The requests at the tail that a request like the last may pass. */
  function Tail(list: seq<Req>): seq<Req> {
    if list == [] then [] else list[RunStart(list, list[|list| - 1])..]
  }

  predicate Last(list: seq<Req>, r: Req) { list != [] && list[|list| - 1] == r }

  lemma TailIs(list: seq<Req>, k: nat)
    requires k < |list| && !Stop(list[|list| - 1])
    requires forall i :: k <= i < |list| ==> Alike(list[|list| - 1], list[i]) && !Stop(list[i])
    requires k > 0 ==> !Alike(list[|list| - 1], list[k - 1]) || Stop(list[k - 1])
    ensures Tail(list) == list[k..]
  {
    hide Tail, Alike, Stop;
    var n := TailParts(list);
    StartsAgree(list, n, k);
  }

  lemma StartsAgree(list: seq<Req>, n: nat, k: nat)
    requires n <= |list| && k < |list| && (n == |list| ==> Stop(list[|list| - 1]))
    requires forall i :: n <= i < |list| ==> Alike(list[|list| - 1], list[i]) && !Stop(list[i])
    requires 0 < n < |list| ==> !Alike(list[|list| - 1], list[n - 1]) || Stop(list[n - 1])
    requires forall i :: k <= i < |list| ==> Alike(list[|list| - 1], list[i]) && !Stop(list[i])
    requires k > 0 ==> !Alike(list[|list| - 1], list[k - 1]) || Stop(list[k - 1])
    ensures n == k
  {
    hide Alike, Stop;
  }

  /** What is in the tail, and what stands before it. */
  lemma TailParts(list: seq<Req>) returns (k: nat)
    ensures k <= |list| && Tail(list) == list[k..]
    ensures forall i :: k <= i < |list| ==> Alike(list[|list| - 1], list[i]) && !Stop(list[i])
    ensures k == |list| ==> list == [] || Stop(list[|list| - 1])
    ensures 0 < k < |list| ==> !Alike(list[|list| - 1], list[k - 1]) || Stop(list[k - 1])
  {
    if list == [] {
      k := 0;
    } else {
      var last := list[|list| - 1];
      k := RunStart(list, last);
      forall i | k <= i < |list| ensures Alike(last, list[i]) && !Stop(list[i]) {
        assert list[k..][i - k] == list[i];
      }
    }
  }

  lemma TailOfStop(list: seq<Req>)
    requires list == [] || Stop(list[|list| - 1])
    ensures Tail(list) == []
  {
  }

  /** Whether a request that is dispatched may pass the tail. */
  predicate Joins(list: seq<Req>, rq: Req) { Tail(list) != [] && Alike(rq, list[|list| - 1]) }

  lemma TailAppend(list: seq<Req>, rq: Req)
    requires !Stop(rq)
    ensures Tail(list + [rq]) == (if Joins(list, rq) then Tail(list) else []) + [rq]
  {
    var k := TailParts(list);
    hide Tail, RunStart;
    var l := list + [rq];
    if Joins(list, rq) {
      TailIs(l, k);
      assert l[k..] == list[k..] + [rq];
    } else {
      TailIs(l, |list|);
    }
  }

  /** A request that stops the scan, put anywhere, leaves the part of the tail that is behind it. */
  lemma TailSplit(list: seq<Req>, pos: nat, x: Req)
    requires pos <= |list| && Stop(x)
    ensures
      var l := InsertAt(list, pos, x);
      Tail(l) == Tail(list) || exists n: nat :: n <= |Tail(list)| && Tail(l) == Tail(list)[n..]
  {
    var k := TailParts(list);
    hide Tail, RunStart;
    var l := InsertAt(list, pos, x);
    if pos == |list| {
      TailOfStop(l);
      assert Tail(list)[|Tail(list)|..] == [];
    } else if k == |list| {
      TailOfStop(l);
    } else if k < pos {
      TailIs(l, pos + 1);
      assert l[pos + 1..] == list[pos..] == list[k..][pos - k..];
    } else {
      TailIs(l, k + 1);
      assert l[k + 1..] == list[k..];
    }
  }

  /** What is left of the tail when the head is started. */
  function Rest(list: seq<Req>): seq<Req> {
    var t := Tail(list);
    if |t| == |list| && t != [] then t[1..] else t
  }

  lemma TailStarted(list: seq<Req>)
    requires list != []
    ensures Tail(list[0 := list[0].(started := true)]) == Rest(list)
  {
    var k := TailParts(list);
    hide Tail, RunStart;
    var l := list[0 := list[0].(started := true)];
    if k == |list| || |list| == 1 {
      TailOfStop(l);
    } else if k == 0 {
      TailIs(l, 1);
      assert l[1..] == list[0..][1..];
    } else {
      TailIs(l, k);
      assert l[k..] == list[k..];
    }
  }

  lemma BehindStop(list: seq<Req>, pos: nat, k: nat)
    requires pos < |list| && Stop(list[pos]) && forall i :: k <= i < |list| ==> !Stop(list[i])
    ensures pos < k
  {
  }

  /** Taking out a request behind requests that stop the scan does not touch the tail. */
  lemma TailLeft(list: seq<Req>, pos: nat)
    requires pos < |list| && forall i :: 0 <= i <= pos ==> Stop(list[i])
    ensures Tail(list[..pos] + list[pos + 1..]) == Tail(list)
  {
    var k := TailParts(list);
    hide Tail, RunStart;
    var l := list[..pos] + list[pos + 1..];
    if k == |list| {
      TailOfStop(l);
    } else {
      BehindStop(list, pos, k);
      TailIs(l, k - 1);
      assert l[k - 1..] == list[k..];
    }
  }

  // ----- order -----

  lemma SuffixSorted(b: nat, run: seq<Req>, n: nat)
    requires Sorted(b, run) && n <= |run|
    ensures Sorted(b, run[n..])
  {
    hide Before;
  }

  /** All the requests start between the two sectors, or none does. */
  predicate Uncut(run: seq<Req>, b: nat, b1: nat) {
    var lo, hi := if b < b1 then b else b1, if b < b1 then b1 else b;
    || (forall i :: 0 <= i < |run| ==> lo <= run[i].sector < hi)
    || (forall i :: 0 <= i < |run| ==> !(lo <= run[i].sector < hi))
  }

  /** When end_sector moves, a run that was sorted from the old one is sorted from the new one if and only if
      the move does not cut it in two. */
  lemma MovedExactly(b: nat, b1: nat, run: seq<Req>)
    requires Sorted(b, run)
    ensures Sorted(b1, run) <==> Uncut(run, b, b1)
  {
    var lo, hi := if b < b1 then b else b1, if b < b1 then b1 else b;
    if Uncut(run, b, b1) {
      forall i, j | 0 <= i < j < |run| ensures !Before(b1, run[j].sector, run[i].sector) {
        assert !Before(b, run[j].sector, run[i].sector);
      }
    } else {
      var i :| 0 <= i < |run| && lo <= run[i].sector < hi;
      var j :| 0 <= j < |run| && !(lo <= run[j].sector < hi);
      Crossed(b, b1, run, i, j);
    }
  }

  lemma Crossed(b: nat, b1: nat, run: seq<Req>, i: nat, j: nat)
    requires Sorted(b, run) && i < |run| && j < |run|
    requires var lo, hi := if b < b1 then b else b1, if b < b1 then b1 else b;
             lo <= run[i].sector < hi && !(lo <= run[j].sector < hi)
    ensures !Sorted(b1, run)
  {
    var first, second := if i < j then i else j, if i < j then j else i;
    assert !Before(b, run[second].sector, run[first].sector);
    assert Before(b1, run[second].sector, run[first].sector);
  }

  lemma AppendSorted(b: nat, run: seq<Req>, rq: Req)
    ensures Sorted(b, run + [rq]) <==>
      Sorted(b, run) && forall i :: 0 <= i < |run| ==> !Before(b, rq.sector, run[i].sector)
  {
    hide Before;
    var r := run + [rq];
    if Sorted(b, r) {
      forall i, j | 0 <= i < j < |run| ensures !Before(b, run[j].sector, run[i].sector) {
        assert !Before(b, r[j].sector, r[i].sector);
      }
      forall i | 0 <= i < |run| ensures !Before(b, rq.sector, run[i].sector) {
        assert !Before(b, r[|run|].sector, r[i].sector);
      }
    }
  }

  /** The scan keeps the tail sorted, whatever is dispatched. */
  lemma SortSorted(b: nat, list: seq<Req>, rq: Req)
    requires Sorted(b, Tail(list)) && !Stop(rq)
    ensures Sorted(b, Tail(Dispatched(b, list, rq)))
  {
    hide Before, Sorted, Inserted, Tail, Dispatched, RunStart, Slot;
    var k := TailParts(list);
    if Joins(list, rq) {
      StartOfTail(list, rq, k);
      DispatchIsStable(b, list, rq);
      InsertedSorted(b, list[k..], rq);
      InsertedAlike(b, list[k..], rq);
      var run := Inserted(b, list[k..], rq);
      var l := list[..k] + run;
      assert forall i :: k <= i < |l| ==> l[i] == run[i - k];
      TailIs(l, k);
      assert l[k..] == run;
    } else {
      NoPass(b, list, rq);
      TailAppend(list, rq);
      OneSorted(b, rq);
    }
  }

  lemma NoneSorted(b: nat)
    ensures Sorted(b, [])
  {
  }

  lemma OneSorted(b: nat, rq: Req)
    ensures Sorted(b, [] + [rq])
  {
  }

  lemma StartOfTail(list: seq<Req>, rq: Req, k: nat)
    requires Joins(list, rq) && k < |list| && Tail(list) == list[k..]
    ensures RunStart(list, rq) == k
  {
    SameStart(list, rq, list[|list| - 1]);
  }

  lemma {:induction false} SameStart(list: seq<Req>, a: Req, b: Req)
    requires Alike(a, b)
    ensures RunStart(list, a) == RunStart(list, b)
  {
    if list != [] {
      SameStart(list[..|list| - 1], a, b);
    }
  }

  lemma {:induction false} InsertedAlike(b: nat, run: seq<Req>, rq: Req)
    requires !Stop(rq) && forall i :: 0 <= i < |run| ==> Alike(rq, run[i]) && !Stop(run[i])
    ensures |Inserted(b, run, rq)| == |run| + 1
    ensures forall i :: 0 <= i <= |run| ==> Alike(rq, Inserted(b, run, rq)[i]) && !Stop(Inserted(b, run, rq)[i])
    decreases |run|
  {
    hide Before;
    if run != [] {
      InsertedAlike(b, run[1..], rq);
    }
  }

  /** A request that may not pass the last one is put behind it. */
  lemma NoPass(b: nat, list: seq<Req>, rq: Req)
    requires !Joins(list, rq) && !Stop(rq)
    ensures Dispatched(b, list, rq) == list + [rq]
  {
    var k := TailParts(list);
    assert list + [rq] == InsertAt(list, |list|, rq);
  }

  // ----- histories -----

  predicate SortedTail(s: State) { Sorted(s.endSector, Tail(s.list)) }

  /** If the event moves end_sector, the move does not cut the tail; what is added behind the tail is not
      earlier. */
  predicate Fits(s: State, e: Event) {
    match e
    case Mark(rq) => Uncut(Tail(s.list), s.endSector, End(rq))
    case AddTail(rq) =>
      Joins(s.list, rq) ==>
        && Uncut(Tail(s.list), s.endSector, End(rq))
        && forall i :: 0 <= i < |Tail(s.list)| ==> !Before(End(rq), rq.sector, Tail(s.list)[i].sector)
    case Fetch => s.list != [] && Moves(s) ==> Uncut(Rest(s.list), s.endSector, End(s.list[0]))
    case _ => true
  }

  lemma EventSorted(s: State, e: Event)
    requires SortedTail(s) && Stacked(s.list) && Enabled(s, e)
    ensures SortedTail(Apply(s, e)) <==> Fits(s, e)
  {
    hide Sorted, Uncut, Before, Tail, Dispatched;
    match e
    case Sort(rq) => SortSorted(s.endSector, s.list, rq);
    case AddTail(rq) => AddTailSorted(s, rq);
    case Mark(rq) => MovedExactly(s.endSector, End(rq), Tail(s.list));
    case Back(rq) =>
      TailOfStop(s.list + [rq.(barrier := true)]);
      NoneSorted(s.endSector);
    case Front(rq) =>
      TailSplit(s.list, 0, rq.(barrier := true));
      assert InsertAt(s.list, 0, rq.(barrier := true)) == [rq.(barrier := true)] + s.list;
      SuffixesSorted(s.endSector, Tail(s.list));
    case Requeue(rq, pos) =>
      TailSplit(s.list, pos, rq.(barrier := true, started := false));
      SuffixesSorted(s.endSector, Tail(s.list));
    case Fetch => FetchSorted(s);
    case Leave(pos) => TailLeft(s.list, pos);
  }

  lemma SuffixesSorted(b: nat, run: seq<Req>)
    requires Sorted(b, run)
    ensures forall n: nat :: n <= |run| ==> Sorted(b, run[n..])
  {
    forall n: nat | n <= |run| ensures Sorted(b, run[n..]) {
      SuffixSorted(b, run, n);
    }
  }

  lemma AddTailSorted(s: State, rq: Req)
    requires SortedTail(s) && !Stop(rq)
    ensures SortedTail(Apply(s, AddTail(rq))) <==> Fits(s, AddTail(rq))
  {
    hide Sorted, Uncut, Before, Tail;
    TailAppend(s.list, rq);
    MovedExactly(s.endSector, End(rq), Tail(s.list));
    AppendSorted(End(rq), Tail(s.list), rq);
    OneSorted(End(rq), rq);
  }

  lemma FetchSorted(s: State)
    requires SortedTail(s) && s.list != []
    ensures SortedTail(Apply(s, Fetch)) <==> Fits(s, Fetch)
  {
    hide Sorted, Uncut, Before, Tail;
    TailStarted(s.list);
    SuffixesSorted(s.endSector, Tail(s.list));
    assert Tail(s.list)[0..] == Tail(s.list);
    MovedExactly(s.endSector, End(s.list[0]), Rest(s.list));
  }

  predicate Histories(s: State, es: seq<Event>, s1: State)
    decreases |es|
  {
    if es == [] then s == s1 else Enabled(s, es[0]) && Histories(Apply(s, es[0]), es[1..], s1)
  }

  /** No move of end_sector cuts the tail. */
  predicate AllFit(s: State, es: seq<Event>)
    decreases |es|
  {
    es == [] || (Enabled(s, es[0]) && Fits(s, es[0]) && AllFit(Apply(s, es[0]), es[1..]))
  }

  predicate AlwaysSorted(s: State, es: seq<Event>)
    decreases |es|
  {
    SortedTail(s) && (es == [] || (Enabled(s, es[0]) && AlwaysSorted(Apply(s, es[0]), es[1..])))
  }

  function Empty(endSector: nat): State { State([], endSector, None) }

  /** Over every history the tail of the dispatch list is sorted from end_sector after every event if and
      only if no move of end_sector cuts the tail there is. */
  lemma SortedExactly(endSector: nat, es: seq<Event>, s: State)
    requires Histories(Empty(endSector), es, s)
    ensures AlwaysSorted(Empty(endSector), es) <==> AllFit(Empty(endSector), es)
  {
    hide Histories, AlwaysSorted, AllFit;
    SortedFrom(Empty(endSector), es, s);
  }

  lemma {:induction false} SortedFrom(s: State, es: seq<Event>, s1: State)
    requires SortedTail(s) && Stacked(s.list) && Histories(s, es, s1)
    ensures AlwaysSorted(s, es) <==> AllFit(s, es)
    decreases |es|
  {
    hide SortedTail, Stacked, Enabled, Apply, Fits;
    if es != [] {
      EventSorted(s, es[0]);
      EventStacked(s, es[0]);
      if Fits(s, es[0]) {
        SortedFrom(Apply(s, es[0]), es[1..], s1);
      } else {
        NotSorted(Apply(s, es[0]), es[1..]);
      }
    }
  }

  lemma NotSorted(s: State, es: seq<Event>)
    requires !SortedTail(s)
    ensures !AlwaysSorted(s, es)
  {
    hide SortedTail, Enabled, Apply;
  }

  // ----- when it is not -----

  /** It happens with two directions: a write is handed out, and its end falls between the two reads behind
      it.  The next read is put before both, so that the sweep goes back and then forward again. */
  lemma FetchCuts() returns (es: seq<Event>, s: State)
    ensures Histories(Empty(0), es, s) && !AllFit(Empty(0), es) && !SortedTail(s)
    ensures
      var t := Apply(s, Sort(Req(3, 35, 4, false, false, false, false)));
      |t.list| == 4 && t.list[1].sector == 35 && t.list[2].sector == 20 && t.list[3].sector == 40
  {
    hide Dispatched, Histories, AllFit, SortedTail, Apply, Enabled;
    var w, r, r1 := Req(0, 10, 20, true, false, false, false), Req(1, 20, 4, false, false, false, false),
                    Req(2, 40, 4, false, false, false, false);
    es := [Sort(w), Sort(r), Sort(r1), Fetch];
    s := State([w.(started := true), r, r1], 30, None);
    Fetches(w, r, r1, es, s);
    Jumps(s, w, r, r1);
    if AllFit(Empty(0), es) {
      SortedExactly(0, es, s);
      EndSorted(Empty(0), es, s);
    }
  }

  lemma {:induction false} EndSorted(s: State, es: seq<Event>, s1: State)
    requires Histories(s, es, s1) && AlwaysSorted(s, es)
    ensures SortedTail(s1)
    decreases |es|
  {
    hide SortedTail, Enabled, Apply;
    if es != [] {
      EndSorted(Apply(s, es[0]), es[1..], s1);
    }
  }

  lemma Fetches(w: Req, r: Req, r1: Req, es: seq<Event>, s: State)
    requires w == Req(0, 10, 20, true, false, false, false) && r == Req(1, 20, 4, false, false, false, false)
    requires r1 == Req(2, 40, 4, false, false, false, false)
    requires es == [Sort(w), Sort(r), Sort(r1), Fetch] && s == State([w.(started := true), r, r1], 30, None)
    ensures Histories(Empty(0), es, s)
  {
    var s1, s2, s3 := State([w], 0, None), State([w, r], 0, None), State([w, r, r1], 0, None);
    assert Slot(0, [], w) == 0 && Dispatched(0, [], w) == [w];
    assert Slot(0, [w], r) == 1 && Dispatched(0, [w], r) == [w, r];
    assert Slot(0, [w, r], r1) == 2 && Dispatched(0, [w, r], r1) == [w, r, r1];
    assert Apply(Empty(0), es[0]) == s1 && Apply(s1, es[1]) == s2 && Apply(s2, es[2]) == s3;
    assert Apply(s3, es[3]) == s;
    assert Histories(s, [], s);
    assert es[1..] == [es[1], es[2], es[3]] && es[1..][1..] == [es[2], es[3]];
    assert es[1..][1..][1..] == [es[3]] && es[1..][1..][1..][1..] == [];
    hide Apply, Dispatched;
    assert Histories(s3, [es[3]], s);
    assert Histories(s2, es[1..][1..], s);
    assert Histories(s1, es[1..], s);
  }

  lemma Jumps(s: State, w: Req, r: Req, r1: Req)
    requires w == Req(0, 10, 20, true, false, false, false) && r == Req(1, 20, 4, false, false, false, false)
    requires r1 == Req(2, 40, 4, false, false, false, false) && s == State([w.(started := true), r, r1], 30, None)
    ensures !SortedTail(s)
    ensures
      var x := Req(3, 35, 4, false, false, false, false);
      Enabled(s, Sort(x)) && Apply(s, Sort(x)).list == [w.(started := true), x, r, r1]
  {
    var x := Req(3, 35, 4, false, false, false, false);
    TailIs(s.list, 1);
    assert Tail(s.list) == [r, r1] && Before(30, r1.sector, r.sector);
    assert !Sorted(30, [r, r1]) by {
      assert [r, r1][0] == r && [r, r1][1] == r1;
    }
    assert s.list[..2] == [w.(started := true), r] && s.list[..2][..1] == [w.(started := true)];
    assert Slot(30, s.list, x) == 1;
    assert InsertAt(s.list, 1, x) == [w.(started := true), x, r, r1];
  }

  // ----- one kind of requests -----

  /** No request starts within another. */
  predicate Apart(list: seq<Req>) {
    forall i, j :: 0 <= i < |list| && 0 <= j < |list| && i != j ==> !(list[i].sector <= list[j].sector < End(list[i]))
  }

  predicate OneKind(list: seq<Req>, like: Req) {
    forall i :: 0 <= i < |list| ==> Alike(like, list[i]) && !list[i].barrier && (i > 0 ==> !list[i].started)
  }

  /** All requests are of one kind, only the first may be started, and then end_sector is its end. */
  predicate OneWay(s: State, like: Req) {
    && s.boundary == None && Apart(s.list) && OneKind(s.list, like)
    && (s.list != [] && s.list[0].started ==> s.endSector == End(s.list[0]))
  }

  /** Only elv_dispatch_sort fills the list, with such requests; the driver takes them one by one. */
  predicate Sweeps(s: State, es: seq<Event>, like: Req)
    decreases |es|
  {
    es == [] ||
    (Enabled(s, es[0]) && Sweeping(s, es[0], like) && Sweeps(Apply(s, es[0]), es[1..], like))
  }

  predicate Sweeping(s: State, e: Event, like: Req) {
    match e
    case Sort(rq) => Alike(like, rq) && Apart(s.list + [rq])
    case Fetch => true
    case Leave(pos) => pos == 0
    case _ => false
  }

  /** Then the list behind the request that is being served is always sorted from where that one ends: the
      driver sees one sweep after the other. */
  lemma SweepsSorted(endSector: nat, es: seq<Event>, s: State, like: Req)
    requires Histories(Empty(endSector), es, s) && Sweeps(Empty(endSector), es, like)
    ensures AlwaysSorted(Empty(endSector), es) && SortedTail(s)
  {
    hide Histories, AlwaysSorted, AllFit, Sweeps;
    SweepsFit(Empty(endSector), es, like);
    SortedExactly(endSector, es, s);
    EndSorted(Empty(endSector), es, s);
  }

  lemma {:induction false} SweepsFit(s: State, es: seq<Event>, like: Req)
    requires OneWay(s, like) && SortedTail(s) && Stacked(s.list) && Sweeps(s, es, like)
    ensures AllFit(s, es)
    decreases |es|
  {
    hide OneWay, SortedTail, Stacked, Enabled, Sweeping, Apply, Fits;
    if es != [] {
      SweepFits(s, es[0], like);
      SweepGoes(s, es[0], like);
      EventSorted(s, es[0]);
      EventStacked(s, es[0]);
      SweepsFit(Apply(s, es[0]), es[1..], like);
    }
  }

  lemma SweepGoes(s: State, e: Event, like: Req)
    requires OneWay(s, like) && Enabled(s, e) && Sweeping(s, e, like)
    ensures OneWay(Apply(s, e), like)
  {
    hide Slot, Apart, InsertAt;
    match e
    case Sort(rq) => SortGoes(s, rq, like);
    case Fetch => StartedApart(s.list);
    case Leave(pos) => LessApart(s.list);
  }

  lemma StartedApart(list: seq<Req>)
    requires Apart(list) && list != []
    ensures Apart(list[0 := list[0].(started := true)])
  {
    var l := list[0 := list[0].(started := true)];
    assert forall i :: 0 <= i < |l| ==> l[i].sector == list[i].sector && End(l[i]) == End(list[i]);
  }

  lemma LessApart(list: seq<Req>)
    requires Apart(list) && list != []
    ensures Apart(list[..0] + list[1..])
  {
    var l := list[..0] + list[1..];
    assert forall i :: 0 <= i < |l| ==> l[i] == list[i + 1];
    hide End;
  }

  lemma SortGoes(s: State, rq: Req, like: Req)
    requires OneWay(s, like) && !Stop(rq) && Alike(like, rq) && Apart(s.list + [rq])
    ensures OneWay(Apply(s, Sort(rq)), like)
  {
    hide Slot, InsertAt, Apart, OneKind, Alike;
    var k := Slot(s.endSector, s.list, rq);
    SlotInRun(s.endSector, s.list, rq);
    InsertedKind(s.list, k, rq, like);
    InsertedApart(s.list, k, rq);
  }

  lemma InsertedKind(list: seq<Req>, k: nat, rq: Req, like: Req)
    requires OneKind(list, like) && !Stop(rq) && Alike(like, rq) && k <= |list|
    requires list != [] && list[0].started ==> k > 0
    ensures OneKind(InsertAt(list, k, rq), like)
    ensures InsertAt(list, k, rq) != []
    ensures InsertAt(list, k, rq)[0].started ==> list != [] && InsertAt(list, k, rq)[0] == list[0]
  {
    var l := InsertAt(list, k, rq);
    assert forall i :: 0 <= i < |l| ==> l[i] == if i < k then list[i] else if i == k then rq else list[i - 1];
  }

  lemma InsertedApart(list: seq<Req>, k: nat, rq: Req)
    requires k <= |list| && Apart(list + [rq])
    ensures Apart(InsertAt(list, k, rq))
  {
    var l, m := InsertAt(list, k, rq), list + [rq];
    forall i, j | 0 <= i < |l| && 0 <= j < |l| && i != j ensures !(l[i].sector <= l[j].sector < End(l[i])) {
      var a := if i < k then i else if i == k then |list| else i - 1;
      var b := if j < k then j else if j == k then |list| else j - 1;
      assert l[i] == m[a] && l[j] == m[b] && a != b;
    }
  }

  lemma SweepFits(s: State, e: Event, like: Req)
    requires OneWay(s, like) && SortedTail(s) && Enabled(s, e) && Sweeping(s, e, like)
    ensures Fits(s, e)
  {
    hide Tail, Rest, Sorted, Apart, OneKind, Uncut, Slot;
    if e.Fetch? {
      if s.list[0].started {
        NotMoved(Rest(s.list), s.endSector);
      } else {
        WholeTail(s, like);
        HeadApart(s.list);
        SweepGoesOn(s.endSector, s.list);
        SuffixSorted(s.endSector, s.list, 1);
        MovedExactly(s.endSector, End(s.list[0]), s.list[1..]);
      }
    }
  }

  lemma NotMoved(run: seq<Req>, b: nat)
    ensures Uncut(run, b, b)
  {
  }

  lemma WholeTail(s: State, like: Req)
    requires OneWay(s, like) && s.list != [] && !s.list[0].started
    ensures Tail(s.list) == s.list && Rest(s.list) == s.list[1..]
  {
    hide Tail, Apart;
    assert forall i :: 0 <= i < |s.list| ==> Alike(s.list[|s.list| - 1], s.list[i]) && !Stop(s.list[i]);
    TailIs(s.list, 0);
  }

  lemma HeadApart(list: seq<Req>)
    requires Apart(list)
    ensures forall i :: 0 < i < |list| ==> !(list[0].sector <= list[i].sector < list[0].sector + list[0].length)
  {
  }

  // ----- what end_sector is -----

  /** Nothing is marked as boundary, and the boundary `id` is not handed out. */
  predicate LeavesBoundary(s: State, es: seq<Event>, id: nat)
    decreases |es|
  {
    es == [] ||
    (&& Enabled(s, es[0]) && !es[0].Mark? && !es[0].AddTail?
     && (es[0].Fetch? ==> s.list[0].id != id)
     && LeavesBoundary(Apply(s, es[0]), es[1..], id))
  }

  lemma {:induction false} BoundaryKept(s: State, es: seq<Event>, s1: State, id: nat)
    requires Histories(s, es, s1) && LeavesBoundary(s, es, id) && s.boundary == Some(id)
    ensures s1.endSector == s.endSector && s1.boundary == Some(id)
    decreases |es|
  {
    if es != [] {
      BoundaryKept(Apply(s, es[0]), es[1..], s1, id);
    }
  }

  /** A request that is added as a new boundary, or at the tail, fixes end_sector at its end until it is handed out
      itself or another one is added so. */
  lemma EndIsBoundary(s: State, e: Event, es: seq<Event>, s1: State)
    requires Enabled(s, e) && (e.Mark? || e.AddTail?)
    requires Histories(Apply(s, e), es, s1) && LeavesBoundary(Apply(s, e), es, e.rq.id)
    ensures s1.endSector == e.rq.sector + e.rq.length && s1.boundary == Some(e.rq.id)
  {
    BoundaryKept(Apply(s, e), es, s1, e.rq.id);
  }

  /** Handing it out, and any hand-out while there is no boundary, moves end_sector to the end of the request that
      is handed out; and then there is none. */
  lemma EndIsServed(s: State)
    requires s.list != [] && (s.boundary == None || s.boundary.value == s.list[0].id)
    ensures Apply(s, Fetch).endSector == s.list[0].sector + s.list[0].length && Apply(s, Fetch).boundary == None
  {
  }

  // ----- what is not passed -----

  /** All requests numbered `id` stop the scan. */
  predicate AllStop(list: seq<Req>, id: nat) { forall i :: 0 <= i < |list| && list[i].id == id ==> Stop(list[i]) }

  /** The event puts a request into the list that the I/O scheduler did not dispatch. */
  predicate Inserts(e: Event) { e.Back? || e.Front? || e.Requeue? }

  /** The I/O scheduler dispatches none numbered `id`. */
  predicate Elsewhere(es: seq<Event>, id: nat) {
    forall i :: 0 <= i < |es| && (es[i].Sort? || es[i].AddTail?) ==> es[i].rq.id != id
  }

  lemma InsertStops(list: seq<Req>, k: nat, rq: Req, id: nat)
    requires k <= |list| && AllStop(list, id) && (rq.id == id ==> Stop(rq))
    ensures AllStop(InsertAt(list, k, rq), id)
  {
    var l := InsertAt(list, k, rq);
    assert forall i :: 0 <= i < |l| ==> l[i] == if i < k then list[i] else if i == k then rq else list[i - 1];
  }

  lemma StepStops(s: State, e: Event, id: nat)
    requires Enabled(s, e) && AllStop(s.list, id) && Elsewhere([e], id)
    ensures AllStop(Apply(s, e).list, id)
  {
    assert [e][0] == e;
    hide Slot, InsertAt;
    match e
    case Sort(rq) => InsertStops(s.list, Slot(s.endSector, s.list, rq), rq, id);
    case Requeue(rq, pos) => InsertStops(s.list, pos, rq.(barrier := true, started := false), id);
    case _ =>
  }

  lemma {:induction false} RunStops(s: State, es: seq<Event>, s1: State, id: nat)
    requires Histories(s, es, s1) && AllStop(s.list, id) && Elsewhere(es, id)
    ensures AllStop(s1.list, id)
    decreases |es|
  {
    if es != [] {
      assert es[0] == [es[0]][0];
      StepStops(s, es[0], id);
      assert forall i :: 0 <= i < |es[1..]| ==> es[1..][i] == es[i + 1];
      hide Apply, Enabled, AllStop;
      RunStops(Apply(s, es[0]), es[1..], s1, id);
    }
  }

  /** A request that was inserted at either end or put back is passed by nothing that elv_dispatch_sort places
      later. */
  lemma InsertedNotPassed(s: State, e: Event, es: seq<Event>, s1: State, y: Req, i: nat)
    requires Enabled(s, e) && Inserts(e) && Histories(Apply(s, e), es, s1) && Elsewhere(es, e.rq.id)
    requires forall j :: 0 <= j < |s.list| ==> s.list[j].id != e.rq.id
    requires Enabled(s1, Sort(y)) && i < |s1.list| && s1.list[i].id == e.rq.id
    ensures i < Slot(s1.endSector, s1.list, y)
    ensures var l := Apply(s1, Sort(y)).list; i < |l| && l[i] == s1.list[i] && y in l[i + 1..]
  {
    NewStops(s, e);
    hide *;
    RunStops(Apply(s, e), es, s1, e.rq.id);
    ScanStops(s1, y, e.rq.id, i);
  }

  lemma NewStops(s: State, e: Event)
    requires Enabled(s, e) && Inserts(e) && forall j :: 0 <= j < |s.list| ==> s.list[j].id != e.rq.id
    ensures AllStop(Apply(s, e).list, e.rq.id)
  {
    hide Apply;
    StepStops(s, e, e.rq.id);
  }

  lemma ScanStops(s: State, y: Req, id: nat, i: nat)
    requires AllStop(s.list, id) && Enabled(s, Sort(y)) && i < |s.list| && s.list[i].id == id
    ensures i < Slot(s.endSector, s.list, y)
    ensures var l := Apply(s, Sort(y)).list; i < |l| && l[i] == s.list[i] && y in l[i + 1..]
  {
    hide Slot;
    SlotInRun(s.endSector, s.list, y);
    var k, l := Slot(s.endSector, s.list, y), Apply(s, Sort(y)).list;
    assert l[k] == y && l[i + 1..][k - i - 1] == y;
  }
}

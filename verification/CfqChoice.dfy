/** What CFQ serves next. */
module CfqChoice {
  import opened Options
  import opened Lists
  import opened CfqQueue
  import opened Cfq
  import CfqOrder

  // ----- the request after one that leaves -----

  /** No request lies between the two. */
  predicate Adjacent(sort: seq<Rq>, x: Rq, o: Rq) {
    forall z :: z in sort ==> !(x.sector < z.sector < o.sector) && !(o.sector < z.sector < x.sector)
  }

  /** `x` is the last by sector and `o` the first. */
  predicate WrapsTo(sort: seq<Rq>, x: Rq, o: Rq) {
    forall z :: z in sort ==> o.sector <= z.sector <= x.sector
  }

  /** A request that may follow `x`: the one before it, the one behind it or, when `x` is the last, the first. */
  predicate Candidate(sort: seq<Rq>, x: Rq, o: Rq) {
    o in sort && o != x && (Adjacent(sort, x, o) || WrapsTo(sort, x, o))
  }

  /** The next request is the candidate of least cost; there is none only if the request was alone. */
  lemma FindNextCheapest(h: Head, sort: seq<Rq>, k: nat)
    requires CfqQueue.Ascending(sort) && k < |sort|
    ensures
      var n := FindNext(h, sort, k);
      if |sort| == 1 then n == None
      else
        && n != None && Candidate(sort, sort[k], n.value)
        && forall o :: Candidate(sort, sort[k], o) && o != n.value ==> CfqQueue.Less(Cost(h, n.value), Cost(h, o))
  {
    hide Cost, CfqQueue.Less, Better;
    if |sort| > 1 {
      var a := if k + 1 < |sort| then k + 1 else 0;
      var b := if k > 0 then k - 1 else a;
      IsCandidate(sort, k, a);
      IsCandidate(sort, k, b);
      forall o | Candidate(sort, sort[k], o) ensures o == sort[a] || o == sort[b] {
        OnlyThese(sort, k, o);
      }
      if sort[a] != sort[b] {
        ChooseIsCheapest(h, sort[a], sort[b]);
      }
      hide Candidate, CfqQueue.Ascending;
    }
  }

  lemma IsCandidate(sort: seq<Rq>, k: nat, a: nat)
    requires CfqQueue.Ascending(sort) && k < |sort| && a < |sort| && a != k
    requires a == k + 1 || a == k - 1 || (a == 0 && k == |sort| - 1)
    ensures Candidate(sort, sort[k], sort[a])
  {
    hide CfqQueue.Ascending;
    Places(sort, a, k);
    forall z | z in sort
      ensures a == 0 && k == |sort| - 1 ==> sort[a].sector <= z.sector <= sort[k].sector
      ensures a == k + 1 || a == k - 1 ==>
        !(sort[k].sector < z.sector < sort[a].sector) && !(sort[a].sector < z.sector < sort[k].sector)
    {
      var j := Index(sort, z);
      Places(sort, j, k);
      Places(sort, j, a);
    }
  }

  lemma Places(sort: seq<Rq>, i: nat, j: nat)
    requires CfqQueue.Ascending(sort) && i < |sort| && j < |sort|
    ensures i < j <==> sort[i].sector < sort[j].sector
    ensures i == j <==> sort[i].sector == sort[j].sector
    ensures i == j <==> sort[i] == sort[j]
  {
  }

  lemma OnlyThese(sort: seq<Rq>, k: nat, o: Rq)
    requires CfqQueue.Ascending(sort) && k < |sort| && Candidate(sort, sort[k], o)
    ensures
      || (k + 1 < |sort| && o == sort[k + 1]) || (k > 0 && o == sort[k - 1])
      || (k == |sort| - 1 && o == sort[0])
  {
    hide CfqQueue.Ascending;
    var j := Index(sort, o);
    Places(sort, j, k);
    if WrapsTo(sort, sort[k], o) {
      Places(sort, j, 0);
      Places(sort, |sort| - 1, k);
      assert sort[0] in sort && sort[|sort| - 1] in sort;
    } else if j > k + 1 {
      assert sort[k + 1] in sort;
      Places(sort, k, k + 1);
      Places(sort, k + 1, j);
    } else if j + 1 < k {
      assert sort[k - 1] in sort;
      Places(sort, k - 1, k);
      Places(sort, j, k - 1);
    }
  }

  /** A new request becomes the next one exactly when it costs less, or there is none. */
  lemma LinkedNext(h: Head, q: Cfqq, x: Rq)
    requires q.next == None || q.next.value.sector != x.sector
    ensures
      Linked(h, q, x).next ==
      if q.next == None || CfqQueue.Less(Cost(h, x), Cost(h, q.next.value)) then Some(x) else q.next
  {
    hide Cost, CfqQueue.Less, Better;
    if q.next != None {
      ChooseIsCheapest(h, q.next.value, x);
    }
  }

  // ----- the requests of one round -----

  /** The requests of a round, one by one: the head of the FIFO when it has expired, otherwise next_rq. */
  lemma {:induction false} RoundServes(h: Head, d: Data, i: nat, expired: seq<bool>, n: nat)
    requires Inv(d) && i < |d.qs| && n < |expired| && n < |d.qs[i].sort|
    ensures
      var before, r := Round(h, d, i, expired[..n]).0, Round(h, d, i, expired).0;
      var q := before.qs[i];
      && before.moved <= r.moved && |before.moved| == |d.moved| + n < |r.moved|
      && q.fifo != [] && q.next != None
      && r.moved[|d.moved| + n] == if expired[n] then q.fifo[0] else q.next.value.id
    decreases n
  {
    hide *;
    var e := RoundStep(h, d, i, expired);
    if n > 0 {
      RoundServes(h, e, i, expired[1..], n - 1);
      var e1 := RoundStep(h, d, i, expired[..n]);
      assert e1 == e && expired[..n][1..] == expired[1..][..n - 1];
    } else {
      RoundNone(h, d, i);
      assert expired[..0] == [];
      RoundGrows(h, e, i, expired[1..]);
    }
  }

  /** The first request of a round leaves queue `i`, and the round goes on. */
  lemma RoundStep(h: Head, d: Data, i: nat, expired: seq<bool>) returns (e: Data)
    requires Inv(d) && i < |d.qs| && expired != [] && d.qs[i].sort != []
    ensures Pick(d.qs[i], expired[0]) < |d.qs[i].sort| && Removable(d, i, Pick(d.qs[i], expired[0]))
    ensures e == DispatchInsert(h, d, i, Pick(d.qs[i], expired[0]))
    ensures Inv(e) && |e.qs| == |d.qs| && |e.qs[i].sort| == |d.qs[i].sort| - 1
    ensures Round(h, d, i, expired).0 == Round(h, e, i, expired[1..]).0
    ensures d.qs[i].fifo != [] && d.qs[i].next != None
    ensures e.moved == d.moved + [if expired[0] then d.qs[i].fifo[0] else d.qs[i].next.value.id]
  {
    var k := Pick(d.qs[i], expired[0]);
    HasNext(d, i, expired[0], k);
    hide Inv, Pick, DispatchInsert, Removable, Round, Account;
    DispatchKeeps(h, d, i, k);
    e := DispatchInsert(h, d, i, k);
    RoundStarts(h, d, i, expired, k);
  }

  lemma RoundStarts(h: Head, d: Data, i: nat, expired: seq<bool>, k: nat)
    requires Inv(d) && i < |d.qs| && expired != [] && d.qs[i].sort != [] && k == Pick(d.qs[i], expired[0])
    requires Removable(d, i, k) && Inv(DispatchInsert(h, d, i, k)) && i < |DispatchInsert(h, d, i, k).qs|
    ensures Round(h, d, i, expired).0 == Round(h, DispatchInsert(h, d, i, k), i, expired[1..]).0
  {
    hide Inv, DispatchInsert, Pick, Removable, Account;
  }

  lemma RoundNone(h: Head, d: Data, i: nat)
    requires Inv(d) && i < |d.qs|
    ensures Round(h, d, i, []).0 == d
  {
    hide Inv;
  }

  lemma RoundOver(h: Head, d: Data, i: nat, expired: seq<bool>)
    requires Inv(d) && i < |d.qs| && d.qs[i].sort == []
    ensures Round(h, d, i, expired).0 == d
  {
    hide Inv, DispatchInsert, Pick;
  }

  lemma HasNext(d: Data, i: nat, expired: bool, k: nat)
    requires Inv(d) && i < |d.qs| && d.qs[i].sort != [] && k == Pick(d.qs[i], expired)
    ensures d.qs[i].fifo != [] && d.qs[i].next != None && k < |d.qs[i].sort|
    ensures d.qs[i].sort[k].id == if expired then d.qs[i].fifo[0] else d.qs[i].next.value.id
  {
    assert Ids(d.qs[i].sort)[0] in d.qs[i].fifo;
    hide Pick, RootOk, OnTree, Total;
  }

  /** A round only adds to what has been moved. */
  lemma {:induction false} RoundGrows(h: Head, d: Data, i: nat, expired: seq<bool>)
    requires Inv(d) && i < |d.qs|
    ensures d.moved <= Round(h, d, i, expired).0.moved
    decreases |expired|
  {
    hide *;
    if expired == [] {
      RoundNone(h, d, i);
    } else if d.qs[i].sort == [] {
      RoundOver(h, d, i, expired);
    } else {
      var e := RoundStep(h, d, i, expired);
      RoundGrows(h, e, i, expired[1..]);
    }
  }

  // ----- the FIFO after a merge -----

  /** The survivor of a merge stands in the FIFO where the absorbed one stood, if that was the older, and stays
      where it was otherwise; nothing else moves. */
  lemma MergedPlace(h: Head, d: Data, i: nat, k: nat, j: nat, older: bool)
    requires Inv(d) && i < |d.qs| && k < |d.qs[i].sort| && j < |d.qs[i].sort| && k != j
    ensures d.qs[i].sort[k].id in d.qs[i].fifo && d.qs[i].sort[j].id in d.qs[i].fifo
    ensures d.qs[i].sort[j].id in Remove(d.qs[i].fifo, d.qs[i].sort[k].id)
    ensures
      var l, x, y := d.qs[i].fifo, d.qs[i].sort[k].id, d.qs[i].sort[j].id;
      Merged(h, d, i, k, j, older).qs[i].fifo ==
      if older then Remove(l, x)[Index(Remove(l, x), y) := x] else Remove(l, y)
  {
    hide *;
    GoodQueue(d, i);
    var l, x, y := d.qs[i].fifo, d.qs[i].sort[k].id, d.qs[i].sort[j].id;
    FifoHas(d.qs[i], k, j);
    MergedFifo(h, d, i, k, j, older);
    AfterIs(d.qs[i], k, j, older);
    TakenOver(l, x, y);
  }

  lemma AfterIs(q: Cfqq, k: nat, j: nat, older: bool)
    requires Good(q) && k < |q.sort| && j < |q.sort| && k != j
    requires q.sort[k].id in q.fifo && q.sort[j].id in Remove(q.fifo, q.sort[k].id)
    ensures FifoAfter(q, k, j, older) == if older then MovedBehind(q.fifo, q.sort[k].id, q.sort[j].id) else q.fifo
  {
    hide Good, MovedBehind, Remove;
  }

  lemma GoodQueue(d: Data, i: nat)
    requires Inv(d) && i < |d.qs|
    ensures Good(d.qs[i])
  {
    hide Good, RootOk, OnTree, Total;
  }

  lemma TakenOver(l: seq<Id>, x: Id, y: Id)
    requires NoDup(l) && x in l && y in Remove(l, x)
    ensures y in MovedBehind(l, x, y)
    ensures Remove(MovedBehind(l, x, y), y) == Remove(l, x)[Index(Remove(l, x), y) := x]
  {
    RemoveFacts(l, x);
    hide Remove, InsertAt;
    TakesPlace(Remove(l, x), Index(Remove(l, x), y), x);
  }

  lemma MergedFifo(h: Head, d: Data, i: nat, k: nat, j: nat, older: bool)
    requires Inv(d) && i < |d.qs| && k < |d.qs[i].sort| && j < |d.qs[i].sort| && k != j && Good(d.qs[i])
    ensures
      var y, m := d.qs[i].sort[j].id, FifoAfter(d.qs[i], k, j, older);
      y in m && Merged(h, d, i, k, j, older).qs[i].fifo == Remove(m, y)
  {
    hide RootOk, Total, OnTree, FindNext, FifoAfter;
    SetFifoKeeps(d, i, FifoAfter(d.qs[i], k, j, older));
    RemoveRqKeeps(h, d.(qs := d.qs[i := d.qs[i].(fifo := FifoAfter(d.qs[i], k, j, older))]), i, j);
  }

  // ----- the queue that is served -----

  /** The active queue goes on while its slice lasts and it has requests, and nobody is served while it is worth
      waiting for; otherwise the queue is the first of the tree, into which the active one has been put again. */
  lemma SelectionIs(d: Data, used: bool, idle: bool, pos: nat)
    requires Inv(d)
    ensures
      var (r, i) := Selected(d, used, idle, pos);
      var goesOn := d.active != None && !used && d.qs[d.active.value].sort != [];
      var waits := d.active != None && !used && !goesOn && idle;
      && (goesOn ==> i == d.active && r == d)
      && (waits ==> i == None && r == d)
      && (!goesOn && !waits ==>
            && r.active == i == (if r.root.order == [] then None else Some(r.root.order[0]))
            && r.root.order ==
                 if d.active == None || d.active.value !in d.root.order then d.root.order
                 else var rest := Remove(d.root.order, d.active.value);
                      InsertAt(rest, Clamp(pos, |rest|), d.active.value))
  {
    hide Good, Total, OnTree, Remove, InsertAt;
    if d.active == None || used || (d.qs[d.active.value].sort == [] && !idle) {
      Again(d, pos);
      FirstExact(Expired(d, pos).root);
    }
  }

  lemma Again(d: Data, pos: nat)
    requires Inv(d)
    ensures RootOk(Expired(d, pos).root)
    ensures
      Expired(d, pos).root.order ==
      if d.active == None || d.active.value !in d.root.order then d.root.order
      else var rest := Remove(d.root.order, d.active.value); InsertAt(rest, Clamp(pos, |rest|), d.active.value)
  {
    ExpireKeeps(d, pos);
    hide Good, Total, OnTree, Remove, InsertAt;
  }

  /** In every history in which changes of class fit: when selection does not stay with the active queue, there is
      no queue with requests that is real-time while the chosen one is not, or of a better class otherwise, or of
      the same class with a smaller key; and none is chosen only when no queue has requests. */
  lemma SelectedIsLeast(n: nat, idleDelay: nat, es: seq<CfqOrder.Event>, w: CfqOrder.World,
                        now: nat, h: Head, used: bool, idle: bool, pos: nat, r: CfqOrder.Rank)
    requires CfqOrder.Histories(CfqOrder.Empty(n, idleDelay), es, w)
    requires CfqOrder.ClassesFit(CfqOrder.Empty(n, idleDelay), es)
    requires Inv(w.d) && CfqOrder.Possible(w, CfqOrder.Act(now, h, Select(used, idle, pos), r))
    requires w.d.active == None || used || (w.d.qs[w.d.active.value].sort == [] && !idle)
    ensures
      var w1 := CfqOrder.Next(w, CfqOrder.Act(now, h, Select(used, idle, pos), r));
      var i := Selected(w.d, used, idle, pos).1;
      && w1.d == Selected(w.d, used, idle, pos).0
      && forall j :: 0 <= j < |w.d.qs| && w.d.qs[j].sort != [] ==>
           && i != None && i.value in w1.rank && j in w1.rank
           && ServedNoLater(w1.rank[i.value], w1.rank[j])
  {
    hide *;
    CfqOrder.LeftmostIsLeast(n, idleDelay, es, w);
    SelectRanked(w, now, h, used, idle, pos, r);
    SelectionIs(w.d, used, idle, pos);
    var w1 := CfqOrder.Next(w, CfqOrder.Act(now, h, Select(used, idle, pos), r));
    ServesLeast(w1, w.d.qs);
  }

  lemma SelectRanked(w: CfqOrder.World, now: nat, h: Head, used: bool, idle: bool, pos: nat, r: CfqOrder.Rank)
    requires Inv(w.d) && CfqOrder.Ranked(w.rank, w.d.root.order)
    requires CfqOrder.Possible(w, CfqOrder.Act(now, h, Select(used, idle, pos), r))
    ensures
      var w1 := CfqOrder.Next(w, CfqOrder.Act(now, h, Select(used, idle, pos), r));
      && w1.d == Selected(w.d, used, idle, pos).0 && Inv(w1.d) && w1.d.qs == w.d.qs
      && CfqOrder.Ranked(w1.rank, w1.d.root.order)
  {
    CfqOrder.ActRanked(w, CfqOrder.Act(now, h, Select(used, idle, pos), r));
    SelectionHasWork(w.d, used, idle, pos);
    hide Inv, CfqOrder.Ranked, Selected, CfqOrder.Possible, CfqOrder.PlacementOf;
  }

  /** The first of a tree in rank order is served no later than any queue with requests. */
  lemma ServesLeast(w: CfqOrder.World, qs: seq<Cfqq>)
    requires Inv(w.d) && CfqOrder.Ranked(w.rank, w.d.root.order) && qs == w.d.qs
    ensures
      forall j :: 0 <= j < |qs| && qs[j].sort != [] ==>
        && w.d.root.order != [] && w.d.root.order[0] in w.rank && j in w.rank
        && ServedNoLater(w.rank[w.d.root.order[0]], w.rank[j])
  {
    hide Good, RootOk, Total, CfqOrder.InRank;
    forall j | 0 <= j < |qs| && qs[j].sort != []
      ensures
        && w.d.root.order != [] && w.d.root.order[0] in w.rank && j in w.rank
        && ServedNoLater(w.rank[w.d.root.order[0]], w.rank[j])
    {
      assert j in w.d.root.order;
      CfqOrder.FirstIsLeast(w.rank, w.d.root.order);
      assert w.d.root.order[0] in w.d.root.order;
    }
  }

  /** Class, then key. */
  predicate ServedNoLater(a: CfqOrder.Rank, b: CfqOrder.Rank) {
    && (b.rt ==> a.rt)
    && (a.rt == b.rt && a.idle ==> b.idle)
    && (a.rt == b.rt && a.idle == b.idle ==> a.key <= b.key)
  }
}

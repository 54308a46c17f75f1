/** Queues, service tree and counters of the CFQ scheduler, block/cfq-iosched.c. */
module Cfq {
  import opened Options
  import opened Lists
  import opened CfqQueue

  // ----- the service tree -----

  /** cfq_rb_root: the queues in tree order, and the cached leftmost one, if any is cached. */
  datatype Root = Root(order: seq<nat>, left: Option<nat>)

  /** cfq_rb_first */
  function First(t: Root): (Root, Option<nat>) {
    var left := if t.left == None && t.order != [] then Some(t.order[0]) else t.left;
    (t.(left := left), left)
  }

  /** cfq_rb_erase */
  function Erased(t: Root, i: nat): Root
    requires i in t.order
  {
    Root(Remove(t.order, i), if t.left == Some(i) then None else t.left)
  }

  /** The end of cfq_service_tree_add: the walk down ended at `pos`, to the left all the way when
      that is the front. */
  function Placed(t: Root, i: nat, pos: nat): Root
    requires pos <= |t.order|
  {
    Root(InsertAt(t.order, pos, i), if pos == 0 then Some(i) else t.left)
  }

  predicate RootOk(t: Root) {
    NoDup(t.order) && (t.left == None || (t.order != [] && t.left == Some(t.order[0])))
  }

  /** The cached leftmost queue is the first in order. */
  lemma FirstExact(t: Root)
    requires RootOk(t)
    ensures First(t).1 == (if t.order == [] then None else Some(t.order[0])) && RootOk(First(t).0)
    ensures First(t).0.order == t.order
  {
  }

  lemma ErasedOk(t: Root, i: nat)
    requires RootOk(t) && i in t.order
    ensures RootOk(Erased(t, i)) && |Erased(t, i).order| == |t.order| - 1
    ensures forall j :: j in Erased(t, i).order <==> j in t.order && j != i
  {
    RemoveFacts(t.order, i);
    RemoveAt(t.order, i);
    if t.left != None {
      IndexUnique(t.order, t.order[0], 0);
    }
  }

  lemma PlacedOk(t: Root, i: nat, pos: nat)
    requires RootOk(t) && i !in t.order && pos <= |t.order|
    ensures RootOk(Placed(t, i, pos)) && |Placed(t, i, pos).order| == |t.order| + 1
    ensures forall j :: j in Placed(t, i, pos).order <==> j in t.order || j == i
  {
    InsertFacts(t.order, pos, i);
  }

  // ----- cfq_data -----

  /** `busy` is busy_queues, `queued` rq_queued, `active` the queue being served, `moved` the
      requests given to the dispatch list, in order. */
  datatype Data = Data(qs: seq<Cfqq>, root: Root, busy: nat, queued: nat, active: Option<nat>, moved: seq<Id>)

  function Total(qs: seq<Cfqq>): nat { if qs == [] then 0 else |qs[0].sort| + Total(qs[1..]) }

  /** Every request in some FIFO. */
  ghost function AllIds(qs: seq<Cfqq>): multiset<Id> {
    if qs == [] then multiset{} else multiset(qs[0].fifo) + AllIds(qs[1..])
  }

  lemma {:induction false} AllIdsLess(qs: seq<Cfqq>, i: nat, q: Cfqq, x: Id)
    requires i < |qs| && multiset(qs[i].fifo) == multiset(q.fifo) + multiset{x}
    ensures AllIds(qs) == AllIds(qs[i := q]) + multiset{x}
    decreases |qs|
  {
    if i == 0 {
      assert qs[0 := q][1..] == qs[1..];
    } else {
      assert qs[i := q][1..] == qs[1..][i - 1 := q];
      AllIdsLess(qs[1..], i - 1, q, x);
    }
  }

  lemma RemoveMultiset(l: seq<Id>, x: Id)
    requires x in l
    ensures multiset(l) == multiset(Remove(l, x)) + multiset{x}
  {
    var k := Index(l, x);
    assert l == l[..k] + [x] + l[k + 1..];
  }

  /** What has been moved and what is still held, together. */
  ghost function Account(d: Data): multiset<Id> { multiset(d.moved) + AllIds(d.qs) }

  lemma {:induction false} TotalChange(qs: seq<Cfqq>, i: nat, q: Cfqq)
    requires i < |qs|
    ensures Total(qs[i := q]) == Total(qs) - |qs[i].sort| + |q.sort|
    ensures Total(qs) >= |qs[i].sort|
    decreases |qs|
  {
    if i == 0 {
      assert qs[0 := q][1..] == qs[1..];
    } else {
      assert qs[i := q][1..] == qs[1..][i - 1 := q];
      TotalChange(qs[1..], i - 1, q);
    }
  }

  // ----- what the scheduler keeps -----

  /** A queue is on the service tree exactly when it has requests. */
  ghost predicate OnTree(d: Data) {
    forall i :: i in d.root.order <==> 0 <= i < |d.qs| && d.qs[i].sort != []
  }

  ghost predicate Inv(d: Data) {
    && (forall i :: 0 <= i < |d.qs| ==> Good(d.qs[i]))
    && RootOk(d.root) && OnTree(d)
    && d.busy == |d.root.order| && d.queued == Total(d.qs)
    && (d.active != None ==> d.active.value < |d.qs|)
  }

  /** The same while request `x` of queue `i` is out of its sorted list: the queue may be on the
      tree although its list is empty.  `extra` requests are counted that are not in any list. */
  ghost predicate InvBut(d: Data, i: nat, x: Rq, extra: nat) {
    && i < |d.qs| && GoodBut(d.qs[i], x)
    && (forall j :: 0 <= j < |d.qs| && j != i ==> Good(d.qs[j]))
    && RootOk(d.root)
    && (forall j :: j != i ==> (j in d.root.order <==> 0 <= j < |d.qs| && d.qs[j].sort != []))
    && (d.qs[i].sort != [] ==> i in d.root.order)
    && d.busy == |d.root.order| && d.queued == Total(d.qs) + extra
    && (d.active != None ==> d.active.value < |d.qs|)
  }

  // ----- operations -----

  /** cfq_del_cfqq_rr */
  function DelRr(d: Data, i: nat): Data
    requires i in d.root.order && d.busy > 0
  {
    d.(root := Erased(d.root, i), busy := d.busy - 1)
  }

  /** cfq_add_cfqq_rr */
  function AddRr(d: Data, i: nat, pos: nat): Data
    requires pos <= |d.root.order|
  {
    d.(root := Placed(d.root, i, pos), busy := d.busy + 1)
  }

  predicate Removable(d: Data, i: nat, k: nat) {
    && i < |d.qs| && k < |d.qs[i].sort| && d.qs[i].sort[k].id in d.qs[i].fifo
    && d.queued > 0 && d.busy > 0
  }

  /** cfq_remove_request of the request at `k` */
  function RemoveRq(h: Head, d: Data, i: nat, k: nat): Data
    requires Removable(d, i, k)
  {
    var q := Removed(h, d.qs[i], k);
    var d1 := d.(qs := d.qs[i := q], queued := d.queued - 1);
    if q.sort == [] && i in d.root.order then DelRr(d1, i) else d1
  }

  /** cfq_dispatch_insert */
  function DispatchInsert(h: Head, d: Data, i: nat, k: nat): Data
    requires Removable(d, i, k)
  {
    RemoveRq(h, d, i, k).(moved := d.moved + [d.qs[i].sort[k].id])
  }

  lemma StaysOnTree(d: Data, i: nat, q: Cfqq)
    requires OnTree(d) && i < |d.qs| && (d.qs[i].sort == [] <==> q.sort == [])
    ensures OnTree(d.(qs := d.qs[i := q]))
  {
  }

  lemma LeavesTree(d: Data, i: nat, q: Cfqq, t: Root)
    requires OnTree(d) && i < |d.qs| && q.sort == []
    requires forall j :: j in t.order <==> j in d.root.order && j != i
    ensures OnTree(d.(qs := d.qs[i := q], root := t))
  {
  }

  lemma RemoveRqKeeps(h: Head, d: Data, i: nat, k: nat)
    requires Inv(d) && i < |d.qs| && k < |d.qs[i].sort|
    ensures Removable(d, i, k) && Inv(RemoveRq(h, d, i, k))
  {
    hide Total, NextOk;
    var q := Removed(h, d.qs[i], k);
    RemovedGood(h, d.qs[i], k);
    TotalChange(d.qs, i, q);
    assert i in d.root.order;
    ErasedOk(d.root, i);
    if q.sort == [] {
      LeavesTree(d, i, q, Erased(d.root, i));
    } else {
      StaysOnTree(d, i, q);
    }
    hide Good, Removed, RootOk, Total, OnTree, Erased;
  }

  lemma RemoveRqKeepsBut(h: Head, d: Data, i: nat, k: nat, x: Rq, extra: nat)
    requires InvBut(d, i, x, extra) && k < |d.qs[i].sort|
    ensures Removable(d, i, k) && InvBut(RemoveRq(h, d, i, k), i, x, extra)
  {
    hide Good, GoodBut, Removed, RootOk, Total;
    RemovedGoodBut(h, d.qs[i], k, x);
    TotalChange(d.qs, i, Removed(h, d.qs[i], k));
    assert i in d.root.order;
    ErasedOk(d.root, i);
  }

  // ----- adding -----

  function Clamp(pos: nat, n: nat): (r: nat)
    ensures r <= n
  {
    if pos <= n then pos else n
  }

  /** Can a request be put into the sorted list: if one with its sector is there, can that go? */
  predicate Addable(d: Data, i: nat, x: Rq) {
    && i < |d.qs|
    && (HasAlias(d.qs[i].sort, x.sector) ==> Removable(d, i, Slot(d.qs[i].sort, x.sector)))
  }

  /** The alias loop of cfq_add_rq_rb. */
  function ClearAlias(h: Head, d: Data, i: nat, x: Rq): (r: Data)
    requires Addable(d, i, x)
    ensures |r.qs| == |d.qs|
  {
    if HasAlias(d.qs[i].sort, x.sector) then DispatchInsert(h, d, i, Slot(d.qs[i].sort, x.sector)) else d
  }

  /** cfq_add_rq_rb; a queue that joins the service tree is placed at `pos`. */
  function AddRb(h: Head, d: Data, i: nat, x: Rq, pos: nat): Data
    requires Addable(d, i, x)
  {
    var d1 := ClearAlias(h, d, i, x);
    var d2 := if i in d1.root.order then d1 else AddRr(d1, i, Clamp(pos, |d1.root.order|));
    d2.(qs := d2.qs[i := Linked(h, d2.qs[i], x)])
  }

  function Joined(d: Data, i: nat, x: Rq): Data
    requires i < |d.qs|
  {
    d.(qs := d.qs[i := d.qs[i].(fifo := d.qs[i].fifo + [x.id])])
  }

  /** cfq_insert_request; joining the FIFO and the sorted list commute. */
  function Inserted(h: Head, d: Data, i: nat, x: Rq, pos: nat): Data
    requires i < |d.qs| && Addable(Joined(d, i, x), i, x)
  {
    var d1 := AddRb(h, Joined(d, i, x), i, x, pos);
    d1.(queued := d1.queued + 1)
  }

  function TakeOut(d: Data, i: nat, k: nat, s: nat): Data
    requires i < |d.qs| && k < |d.qs[i].sort|
  {
    d.(qs := d.qs[i := TakenOut(d.qs[i], k, s)])
  }

  /** cfq_merged_request after a front merge: cfq_reposition_rq_rb with the new sector `s`. */
  function Repositioned(h: Head, d: Data, i: nat, k: nat, s: nat, pos: nat): Data
    requires i < |d.qs| && k < |d.qs[i].sort|
    requires Addable(TakeOut(d, i, k, s), i, d.qs[i].sort[k].(sector := s))
  {
    AddRb(h, TakeOut(d, i, k, s), i, d.qs[i].sort[k].(sector := s), pos)
  }

  lemma ClearAliasKeeps(h: Head, d: Data, i: nat, x: Rq, extra: nat)
    requires InvBut(d, i, x, extra)
    ensures Addable(d, i, x)
    ensures InvBut(ClearAlias(h, d, i, x), i, x, extra)
    ensures !HasAlias(ClearAlias(h, d, i, x).qs[i].sort, x.sector)
  {
    var sort := d.qs[i].sort;
    if HasAlias(sort, x.sector) {
      var k := Slot(sort, x.sector);
      RemoveRqKeepsBut(h, d, i, k, x, extra);
      AliasGone(sort, x.sector);
      RemoveRqSort(h, d, i, k);
      hide InvBut, RemoveRq, HasAlias, Removable;
      MovedBut(RemoveRq(h, d, i, k), i, x, extra, d.moved + [sort[k].id]);
    }
  }

  lemma RemoveRqSort(h: Head, d: Data, i: nat, k: nat)
    requires Removable(d, i, k)
    ensures |RemoveRq(h, d, i, k).qs| == |d.qs|
    ensures RemoveRq(h, d, i, k).qs[i].sort == Without(d.qs[i].sort, k)
  {
  }

  lemma MovedBut(d: Data, i: nat, x: Rq, extra: nat, moved: seq<Id>)
    requires InvBut(d, i, x, extra)
    ensures InvBut(d.(moved := moved), i, x, extra)
  {
    hide GoodBut, Good, RootOk, Total;
  }

  lemma AddRbKeeps(h: Head, d: Data, i: nat, x: Rq, pos: nat, extra: nat)
    requires InvBut(d, i, x, extra) && extra <= 1
    ensures Addable(d, i, x)
    ensures
      var r := AddRb(h, d, i, x, pos);
      Inv(r.(queued := r.queued + 1 - extra))
  {
    hide InvBut, Inv, Linked, ClearAlias, AddRr;
    ClearAliasKeeps(h, d, i, x, extra);
    var d1 := ClearAlias(h, d, i, x);
    LinkKeeps(h, d1, i, x, pos, extra);
  }

  lemma LinkKeeps(h: Head, d: Data, i: nat, x: Rq, pos: nat, extra: nat)
    requires InvBut(d, i, x, extra) && extra <= 1 && !HasAlias(d.qs[i].sort, x.sector)
    ensures
      var d2 := if i in d.root.order then d else AddRr(d, i, Clamp(pos, |d.root.order|));
      Inv(d2.(qs := d2.qs[i := Linked(h, d2.qs[i], x)], queued := d2.queued + 1 - extra))
  {
    hide GoodBut, Good, Linked, RootOk, Total, Placed, Clamp;
    var q := Linked(h, d.qs[i], x);
    LinkedGood(h, d.qs[i], x);
    TotalChange(d.qs, i, q);
    if i !in d.root.order {
      PlacedOk(d.root, i, Clamp(pos, |d.root.order|));
    }
  }

  lemma JoinedBut(d: Data, i: nat, x: Rq)
    requires Inv(d) && i < |d.qs| && x.id !in d.qs[i].fifo
    ensures InvBut(Joined(d, i, x), i, x, 0)
  {
    hide GoodBut, Good, RootOk, Total;
    JoinGoodBut(d.qs[i], x);
    TotalChange(d.qs, i, d.qs[i].(fifo := d.qs[i].fifo + [x.id]));
  }

  lemma TakeOutBut(d: Data, i: nat, k: nat, s: nat)
    requires Inv(d) && i < |d.qs| && k < |d.qs[i].sort|
    ensures InvBut(TakeOut(d, i, k, s), i, d.qs[i].sort[k].(sector := s), 1)
  {
    hide GoodBut, Good, RootOk, Total, TakenOut;
    TakenOutGoodBut(d.qs[i], k, s);
    TotalChange(d.qs, i, TakenOut(d.qs[i], k, s));
    assert i in d.root.order;
  }

  lemma InsertKeeps(h: Head, d: Data, i: nat, x: Rq, pos: nat)
    requires Inv(d) && i < |d.qs| && x.id !in d.qs[i].fifo
    ensures Addable(Joined(d, i, x), i, x) && Inv(Inserted(h, d, i, x, pos))
  {
    hide InvBut, Inv, AddRb;
    JoinedBut(d, i, x);
    AddRbKeeps(h, Joined(d, i, x), i, x, pos, 0);
  }

  lemma RepositionKeeps(h: Head, d: Data, i: nat, k: nat, s: nat, pos: nat)
    requires Inv(d) && i < |d.qs| && k < |d.qs[i].sort|
    ensures Addable(TakeOut(d, i, k, s), i, d.qs[i].sort[k].(sector := s))
    ensures Inv(Repositioned(h, d, i, k, s, pos))
  {
    hide InvBut, Inv, AddRb;
    var x := d.qs[i].sort[k].(sector := s);
    TakeOutBut(d, i, k, s);
    AddRbKeeps(h, TakeOut(d, i, k, s), i, x, pos, 1);
    assert forall r: Data :: r.(queued := r.queued + 1 - 1) == r;
  }

  // ----- merging two requests -----

  /** list_move of `x` behind `y` */
  function MovedBehind(l: seq<Id>, x: Id, y: Id): seq<Id>
    requires x in l && y in Remove(l, x)
  {
    InsertAt(Remove(l, x), Index(Remove(l, x), y) + 1, x)
  }

  function FifoAfter(q: Cfqq, k: nat, j: nat, older: bool): (fifo: seq<Id>)
    requires Good(q) && k < |q.sort| && j < |q.sort| && k != j
    ensures Good(q.(fifo := fifo))
  {
    hide Good, MovedBehind;
    if older then
      FifoHas(q, k, j);
      MovedSame(q.fifo, q.sort[k].id, q.sort[j].id);
      SameFifo(q, MovedBehind(q.fifo, q.sort[k].id, q.sort[j].id));
      MovedBehind(q.fifo, q.sort[k].id, q.sort[j].id)
    else q.fifo
  }

  lemma SameFifo(q: Cfqq, fifo: seq<Id>)
    requires Good(q) && NoDup(fifo) && forall z :: z in fifo <==> z in q.fifo
    ensures Good(q.(fifo := fifo))
  {
    hide Ascending;
  }

  lemma MovedSame(l: seq<Id>, x: Id, y: Id)
    requires NoDup(l) && x in l && y in Remove(l, x)
    ensures NoDup(MovedBehind(l, x, y)) && forall z :: z in MovedBehind(l, x, y) <==> z in l
  {
    hide Index;
    RemoveFacts(l, x);
    var m := Remove(l, x);
    InsertFacts(m, Index(m, y) + 1, x);
  }

  lemma SetFifoKeeps(d: Data, i: nat, fifo: seq<Id>)
    requires Inv(d) && i < |d.qs| && Good(d.qs[i].(fifo := fifo))
    ensures Inv(d.(qs := d.qs[i := d.qs[i].(fifo := fifo)]))
  {
    hide Good, RootOk, Total, OnTree;
    var q := d.qs[i].(fifo := fifo);
    TotalChange(d.qs, i, q);
    StaysOnTree(d, i, q);
  }

  /** cfq_merged_requests: the request at `j` is absorbed by the one at `k`, which takes its place in
      the FIFO when it was the older (`older`). */
  function Merged(h: Head, d: Data, i: nat, k: nat, j: nat, older: bool): (r: Data)
    requires Inv(d) && i < |d.qs| && k < |d.qs[i].sort| && j < |d.qs[i].sort| && k != j
    ensures Inv(r)
  {
    var fifo := FifoAfter(d.qs[i], k, j, older);
    SetFifoKeeps(d, i, fifo);
    var d1 := d.(qs := d.qs[i := d.qs[i].(fifo := fifo)]);
    RemoveRqKeeps(h, d1, i, j);
    RemoveRq(h, d1, i, j)
  }

  lemma FifoHas(q: Cfqq, k: nat, j: nat)
    requires Good(q) && k < |q.sort| && j < |q.sort| && k != j
    ensures q.sort[k].id in q.fifo && q.sort[j].id in Remove(q.fifo, q.sort[k].id)
    ensures q.sort[j].id in q.fifo && NoDup(q.fifo)
  {
    assert Ids(q.sort)[k] in Ids(q.sort) && Ids(q.sort)[j] in Ids(q.sort);
    assert q.sort[k].id != q.sort[j].id by {
      if k < j {
      } else {
        assert q.sort[j].id != q.sort[k].id;
      }
    }
    RemoveFacts(q.fifo, q.sort[k].id);
  }

  // ----- serving -----

  /** cfq_resort_rr_list: a queue on the tree goes to the place that its new key gives it. */
  function Resorted(d: Data, i: nat, pos: nat): Data {
    if i in d.root.order then
      var t := Erased(d.root, i);
      d.(root := Placed(t, i, Clamp(pos, |t.order|)))
    else d
  }

  lemma ResortKeeps(d: Data, i: nat, pos: nat)
    requires Inv(d)
    ensures Inv(Resorted(d, i, pos)) && Resorted(d, i, pos).qs == d.qs
  {
    if i in d.root.order {
      ErasedOk(d.root, i);
      var t := Erased(d.root, i);
      PlacedOk(t, i, Clamp(pos, |t.order|));
      hide Good, RootOk, Total, Placed, Erased;
    }
  }

  /** cfq_slice_expired */
  function Expired(d: Data, pos: nat): Data {
    if d.active == None then d else Resorted(d, d.active.value, pos).(active := None)
  }

  /** cfq_select_queue: `used` when the active queue's slice is over, `idle` when it may be waited
      for although it has nothing to do. */
  function Selected(d: Data, used: bool, idle: bool, pos: nat): (Data, Option<nat>)
    requires d.active != None ==> d.active.value < |d.qs|
  {
    if d.active != None && !used && d.qs[d.active.value].sort != [] then (d, d.active)
    else if d.active != None && !used && idle then (d, None)
    else
      var d1 := Expired(d, pos);
      var (root, first) := First(d1.root);
      (d1.(root := root, active := first), first)
  }

  /** Selection never yields a queue without requests, and yields none only to wait or when there
      are no requests at all. */
  lemma SelectionHasWork(d: Data, used: bool, idle: bool, pos: nat)
    requires Inv(d)
    ensures
      var (r, i) := Selected(d, used, idle, pos);
      && Inv(r) && r.qs == d.qs
      && (i != None ==> i.value < |d.qs| && d.qs[i.value].sort != [] && r.active == i)
      && (i == None && !(d.active != None && !used && idle) ==> forall j :: 0 <= j < |d.qs| ==> d.qs[j].sort == [])
  {
    hide Resorted, First, Total;
    if d.active != None && !used && (d.qs[d.active.value].sort != [] || idle) {
    } else {
      if d.active != None {
        ResortKeeps(d, d.active.value, pos);
      }
      var d1 := Expired(d, pos);
      assert Inv(d1) && d1.qs == d.qs by {
        hide Good, RootOk, Total, Resorted, OnTree;
      }
      FirstExact(d1.root);
      hide Good, Total, Resorted, RootOk, Expired;
      var t := First(d1.root).0.order;
      assert t == d1.root.order;
      if t != [] {
        assert t[0] in d1.root.order;
      }
    }
  }

  /** Where the head of the FIFO, or next_rq, stands in the sorted list. */
  function Pick(q: Cfqq, expired: bool): (k: nat)
    requires Good(q) && q.sort != []
    ensures k < |q.sort|
    ensures if expired then q.fifo != [] && q.sort[k].id == q.fifo[0] else q.next == Some(q.sort[k])
  {
    if expired then
      assert Ids(q.sort)[0] in q.fifo;
      assert q.fifo[0] in Ids(q.sort);
      Index(Ids(q.sort), q.fifo[0])
    else Index(q.sort, q.next.value)
  }

  /** __cfq_dispatch_requests: as many requests as the list `expired` is long, or until the queue is
      empty; an entry says whether the head of the FIFO is to go before next_rq. */
  function Round(h: Head, d: Data, i: nat, expired: seq<bool>): (r: (Data, nat))
    requires Inv(d) && i < |d.qs|
    ensures Inv(r.0) && |r.0.qs| == |d.qs|
    ensures r.1 == (if |expired| <= |d.qs[i].sort| then |expired| else |d.qs[i].sort|)
    ensures r.0.queued == d.queued - r.1 && |r.0.moved| == |d.moved| + r.1 && Account(r.0) == Account(d)
    decreases |expired|
  {
    if expired == [] || d.qs[i].sort == [] then (d, 0)
    else
      var k := Pick(d.qs[i], expired[0]);
      DispatchKeeps(h, d, i, k);
      var (r, n) := Round(h, DispatchInsert(h, d, i, k), i, expired[1..]);
      (r, n + 1)
  }

  /** One request of queue `i` has gone to the dispatch list, and nothing else has changed. */
  lemma DispatchKeeps(h: Head, d: Data, i: nat, k: nat)
    requires Inv(d) && i < |d.qs| && k < |d.qs[i].sort|
    ensures Removable(d, i, k)
    ensures
      var r := DispatchInsert(h, d, i, k);
      && Inv(r) && r.queued == d.queued - 1 && r.moved == d.moved + [d.qs[i].sort[k].id]
      && |r.qs| == |d.qs| && |r.qs[i].sort| == |d.qs[i].sort| - 1
      && r.qs[i].fifo == Remove(d.qs[i].fifo, d.qs[i].sort[k].id)
      && r.active == d.active && Account(r) == Account(d)
      && forall j :: 0 <= j < |d.qs| && j != i ==> r.qs[j] == d.qs[j]
  {
    hide *;
    RemoveRqKeeps(h, d, i, k);
    DispatchAccount(h, d, i, k);
    DispatchFields(h, d, i, k);
    MovedKeeps(RemoveRq(h, d, i, k), d.moved + [d.qs[i].sort[k].id]);
  }

  lemma MovedKeeps(d: Data, moved: seq<Id>)
    requires Inv(d)
    ensures Inv(d.(moved := moved))
  {
    hide Good, RootOk, Total;
  }

  lemma DispatchFields(h: Head, d: Data, i: nat, k: nat)
    requires Removable(d, i, k)
    ensures
      var r := DispatchInsert(h, d, i, k);
      && r == RemoveRq(h, d, i, k).(moved := d.moved + [d.qs[i].sort[k].id])
      && r.queued == d.queued - 1 && r.active == d.active
      && |r.qs| == |d.qs| && |r.qs[i].sort| == |d.qs[i].sort| - 1
      && r.qs[i].fifo == Remove(d.qs[i].fifo, d.qs[i].sort[k].id)
      && forall j :: 0 <= j < |d.qs| && j != i ==> r.qs[j] == d.qs[j]
  {
    hide FindNext, Erased;
  }

  lemma DispatchAccount(h: Head, d: Data, i: nat, k: nat)
    requires Removable(d, i, k)
    ensures Account(DispatchInsert(h, d, i, k)) == Account(d)
  {
    hide AllIds, FindNext;
    var x := d.qs[i].sort[k].id;
    RemoveMultiset(d.qs[i].fifo, x);
    AllIdsLess(d.qs, i, Removed(h, d.qs[i], k), x);
    assert multiset(d.moved + [x]) == multiset(d.moved) + multiset{x};
  }

  // ----- forced dispatch -----

  /** __cfq_forced_dispatch_cfqq */
  function Drained(h: Head, d: Data, i: nat): (r: (Data, nat))
    requires Inv(d) && i < |d.qs|
    ensures Inv(r.0) && |r.0.qs| == |d.qs| && r.1 == |d.qs[i].sort| && r.0.queued == d.queued - r.1
    decreases |d.qs[i].sort|
  {
    if d.qs[i].next == None then
      EmptyFifo(d.qs[i]);
      (d, 0)
    else
      var k := Pick(d.qs[i], false);
      DispatchKeeps(h, d, i, k);
      var (r, n) := Drained(h, DispatchInsert(h, d, i, k), i);
      (r, n + 1)
  }

  /** The queue is empty afterwards, the others are as they were, and nothing is lost. */
  lemma {:induction false} DrainedFacts(h: Head, d: Data, i: nat)
    requires Inv(d) && i < |d.qs|
    ensures
      var r := Drained(h, d, i).0;
      && r.qs[i].sort == [] && r.qs[i].fifo == [] && Account(r) == Account(d)
      && forall j :: 0 <= j < |d.qs| && j != i ==> r.qs[j] == d.qs[j]
    decreases |d.qs[i].sort|
  {
    if d.qs[i].next == None {
      EmptyFifo(d.qs[i]);
    } else {
      var k := Pick(d.qs[i], false);
      DispatchKeeps(h, d, i, k);
      var e := DispatchInsert(h, d, i, k);
      DrainedFacts(h, e, i);
      hide Inv, DispatchInsert, Account, Pick;
    }
  }

  lemma HasMember(l: seq<Id>)
    requires l != []
    ensures exists x :: x in l
  {
    assert l[0] in l;
  }

  lemma EmptyFifo(q: Cfqq)
    requires Good(q) && q.next == None
    ensures q.sort == [] && q.fifo == []
  {
    assert forall x :: x in q.fifo ==> x in Ids(q.sort);
    if q.fifo != [] {
      HasMember(q.fifo);
    }
  }

  /** cfq_forced_dispatch, up to the end of its loop: queues are emptied as long as the tree has a
      first one. */
  function ForcedLoop(h: Head, d: Data): (r: (Data, nat))
    requires Inv(d)
    ensures Inv(r.0) && r.0.root.order == [] && r.0.queued == d.queued - r.1
    decreases d.queued
  {
    CachedKeeps(d);
    var first := First(d.root).1;
    if first == None then (Cached(d), 0)
    else
      var e := Drained(h, Cached(d), first.value);
      var r := ForcedLoop(h, e.0);
      (r.0, r.1 + e.1)
  }

  /** After a look at the tree. */
  function Cached(d: Data): Data { d.(root := First(d.root).0) }

  lemma CachedKeeps(d: Data)
    requires Inv(d)
    ensures Inv(Cached(d)) && Cached(Cached(d)) == Cached(d) && First(Cached(d).root).1 == First(d.root).1
    ensures
      var first := First(d.root).1;
      if first == None then d.root.order == [] && d.queued == 0
      else first.value < |d.qs| && d.qs[first.value].sort != []
  {
    hide Good, Total;
    FirstExact(d.root);
    SetRootKeeps(d, First(d.root).0);
    if d.root.order != [] {
      assert d.root.order[0] in d.root.order;
    } else {
      AllEmpty(d);
    }
  }

  lemma AllEmpty(d: Data)
    requires Inv(d) && d.root.order == []
    ensures Total(d.qs) == 0
  {
    forall i | 0 <= i < |d.qs| ensures d.qs[i].sort == [] && d.qs[i].fifo == [] {
      assert Good(d.qs[i]);
      EmptyFifo(d.qs[i]);
    }
    NothingHeld(d.qs);
  }

  lemma {:induction false} ForcedLosesNone(h: Head, d: Data)
    requires Inv(d)
    ensures Account(ForcedLoop(h, d).0) == Account(d)
    decreases d.queued
  {
    CachedKeeps(d);
    var first := First(d.root).1;
    assert Account(Cached(d)) == Account(d);
    if first != None {
      DrainedFacts(h, Cached(d), first.value);
      hide Inv, Account, Drained, Cached;
      ForcedLosesNone(h, Drained(h, Cached(d), first.value).0);
    }
  }

  lemma SetRootKeeps(d: Data, root: Root)
    requires Inv(d) && RootOk(root) && root.order == d.root.order
    ensures Inv(d.(root := root))
  {
    hide Good, Total, RootOk;
  }

  /** cfq_forced_dispatch */
  function Forced(h: Head, d: Data, pos: nat): (r: (Data, nat))
    requires Inv(d)
    ensures Inv(r.0)
  {
    var (d1, n) := ForcedLoop(h, d);
    ExpireKeeps(d1, pos);
    (Expired(d1, pos), n)
  }

  lemma ExpireKeeps(d: Data, pos: nat)
    requires Inv(d)
    ensures
      var r := Expired(d, pos);
      Inv(r) && r.qs == d.qs && r.moved == d.moved && r.queued == d.queued && |r.root.order| == |d.root.order|
  {
    if d.active != None {
      ResortKeeps(d, d.active.value, pos);
    }
    hide Good, RootOk, Total, OnTree, Placed, Erased;
  }

  /** Forced dispatch ends with every queue empty and off the tree, the counters at zero, every
      request on the dispatch list once, and their exact number as its result. */
  lemma ForcedEmptiesAll(h: Head, d: Data, pos: nat)
    requires Inv(d)
    ensures
      var (r, n) := Forced(h, d, pos);
      && n == d.queued == Total(d.qs)
      && r.busy == 0 && r.queued == 0 && r.root.order == [] && r.active == None
      && (forall i :: 0 <= i < |r.qs| ==> r.qs[i].sort == [] && r.qs[i].fifo == [] && r.qs[i].next == None)
      && multiset(r.moved) == multiset(d.moved) + AllIds(d.qs)
  {
    var (d1, n) := ForcedLoop(h, d);
    ForcedLosesNone(h, d);
    ExpireKeeps(d1, pos);
    var r := Expired(d1, pos);
    assert r.root.order == [];
    assert forall i :: 0 <= i < |r.qs| ==> r.qs[i].sort == [] && Good(r.qs[i]);
    forall i | 0 <= i < |r.qs| ensures r.qs[i].fifo == [] && r.qs[i].next == None {
      assert Good(r.qs[i]);
      EmptyFifo(r.qs[i]);
    }
    NothingHeld(r.qs);
  }

  lemma {:induction false} NothingHeld(qs: seq<Cfqq>)
    requires forall i :: 0 <= i < |qs| ==> qs[i].sort == [] && qs[i].fifo == []
    ensures Total(qs) == 0 && AllIds(qs) == multiset{}
  {
    if qs != [] {
      assert qs[0].sort == [] && qs[0].fifo == [];
      forall i | 0 <= i < |qs[1..]| ensures qs[1..][i].sort == [] && qs[1..][i].fifo == [] {
        assert qs[1..][i] == qs[i + 1];
      }
      NothingHeld(qs[1..]);
    }
  }

  // ----- runs -----

  datatype Step =
    | Insert(queue: nat, rq: Rq, pos: nat)
    | FrontMerge(queue: nat, k: nat, sector: nat, pos: nat)
    | Merge(queue: nat, k: nat, j: nat, older: bool)
    | Resort(queue: nat, pos: nat)
    | Expire(pos: nat)
    | Select(used: bool, idle: bool, pos: nat)
    | Serve(queue: nat, expired: seq<bool>)
    | Force(pos: nat)

  predicate Enabled(d: Data, e: Step) {
    match e
    case Insert(i, x, _) => i < |d.qs| && x.id !in d.qs[i].fifo
    case FrontMerge(i, k, _, _) => i < |d.qs| && k < |d.qs[i].sort|
    case Merge(i, k, j, _) => i < |d.qs| && k < |d.qs[i].sort| && j < |d.qs[i].sort| && k != j
    case Serve(i, _) => i < |d.qs| && d.qs[i].sort != []
    case _ => true
  }

  function Apply(h: Head, d: Data, e: Step): (r: Data)
    requires Inv(d) && Enabled(d, e)
    ensures Inv(r)
  {
    match e
    case Insert(i, x, pos) => InsertKeeps(h, d, i, x, pos); Inserted(h, d, i, x, pos)
    case FrontMerge(i, k, s, pos) => RepositionKeeps(h, d, i, k, s, pos); Repositioned(h, d, i, k, s, pos)
    case Merge(i, k, j, older) => Merged(h, d, i, k, j, older)
    case Resort(i, pos) => ResortKeeps(d, i, pos); Resorted(d, i, pos)
    case Expire(pos) => ExpireKeeps(d, pos); Expired(d, pos)
    case Select(used, idle, pos) => SelectionHasWork(d, used, idle, pos); Selected(d, used, idle, pos).0
    case Serve(i, expired) => Round(h, d, i, expired).0
    case Force(pos) => Forced(h, d, pos).0
  }

  /** Steps, each with the position of the disk head at the time. */
  ghost predicate Runs(d: Data, steps: seq<(Head, Step)>)
    requires Inv(d)
    decreases |steps|
  {
    steps == [] || (Enabled(d, steps[0].1) && Runs(Apply(steps[0].0, d, steps[0].1), steps[1..]))
  }

  function Run(d: Data, steps: seq<(Head, Step)>): (r: Data)
    requires Inv(d) && Runs(d, steps)
    ensures Inv(r)
    decreases |steps|
  {
    if steps == [] then d else Run(Apply(steps[0].0, d, steps[0].1), steps[1..])
  }

  function Init(n: nat): (d: Data)
    ensures Inv(d)
  {
    var qs := seq(n, _ => Cfqq([], [], None));
    InitTotal(qs);
    Data(qs, Root([], None), 0, 0, None, [])
  }

  lemma InitTotal(qs: seq<Cfqq>)
    requires forall i :: 0 <= i < |qs| ==> qs[i] == Cfqq([], [], None)
    ensures Total(qs) == 0
  {
    NothingHeld(qs);
  }

  /** In every reachable state the caches agree with the lists. */
  lemma CachesAgree(n: nat, steps: seq<(Head, Step)>, i: nat)
    requires Runs(Init(n), steps) && i < |Run(Init(n), steps).qs|
    ensures
      var d := Run(Init(n), steps);
      var q := d.qs[i];
      && (i in d.root.order <==> q.sort != [])
      && (q.next == None <==> q.sort == []) && (q.next != None ==> q.next.value in q.sort)
      && (forall x :: x in q.fifo <==> exists r :: r in q.sort && r.id == x)
      && (forall a, b :: 0 <= a < b < |q.sort| ==> q.sort[a].sector < q.sort[b].sector)
      && d.busy == |d.root.order| && d.queued == Total(d.qs)
      && First(d.root).1 == if d.root.order == [] then None else Some(d.root.order[0])
  {
    hide Run, Runs, Init, Total;
    var d := Run(Init(n), steps);
    var q := d.qs[i];
    assert Inv(d) && Good(q);
    FirstExact(d.root);
    forall x ensures x in q.fifo <==> exists r :: r in q.sort && r.id == x {
      MembersById(q.sort, x);
    }
  }

  lemma MembersById(sort: seq<Rq>, x: Id)
    ensures x in Ids(sort) <==> exists r :: r in sort && r.id == x
  {
    if x in Ids(sort) {
      var k :| 0 <= k < |sort| && Ids(sort)[k] == x;
      assert sort[k] in sort;
    }
    if r :| r in sort && r.id == x {
      var k :| 0 <= k < |sort| && sort[k] == r;
      assert Ids(sort)[k] == x;
    }
  }
}

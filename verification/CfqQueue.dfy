/** One queue of the CFQ scheduler, block/cfq-iosched.c, and its next request. */
module CfqQueue {
  import opened Options
  import opened Lists

  type Id = nat

  datatype Rq = Rq(id: Id, sector: nat, sync: bool, meta: bool)

  /** struct cfq_queue; the red-black tree is the sequence of its requests by sector. */
  datatype Cfqq = Cfqq(sort: seq<Rq>, fifo: seq<Id>, next: Option<Rq>)

  /** last_position, cfq_back_max and cfq_back_penalty */
  datatype Head = Head(last: nat, backMax: nat, penalty: nat)

  // ----- choosing between two requests -----

  /** Too far behind the head to go back for. */
  predicate Wraps(h: Head, s: nat) { s + h.backMax * 2 < h.last }

  function Distance(h: Head, s: nat): nat
    requires !Wraps(h, s)
  {
    if s >= h.last then s - h.last else (h.last - s) * h.penalty
  }

  /** cfq_choose_req */
  function Choose(h: Head, a: Option<Rq>, b: Option<Rq>): Option<Rq> {
    if a == None || a == b then b
    else if b == None then a
    else Better(h, a.value, b.value)
  }

  function Better(h: Head, a: Rq, b: Rq): Option<Rq> {
    if a.sync && !b.sync then Some(a)
    else if b.sync && !a.sync then Some(b)
    else if a.meta && !b.meta then Some(a)
    else if b.meta && !a.meta then Some(b)
    else if !Wraps(h, a.sector) && !Wraps(h, b.sector) then
      var d1 := Distance(h, a.sector);
      var d2 := Distance(h, b.sector);
      if d1 < d2 then Some(a)
      else if d2 < d1 then Some(b)
      else if a.sector >= b.sector then Some(a) else Some(b)
    else if !Wraps(h, a.sector) then Some(a)
    else if !Wraps(h, b.sector) then Some(b)
    else if a.sector <= b.sector then Some(a) else Some(b)
  }

  /** The costs of a request, the most important first: asynchronous, no metadata, more than twice cfq_back_max
      behind the head, then the way to it, and of two equal ways the one back. */
  function Cost(h: Head, r: Rq): seq<int> {
    var ahead := r.sector as int - h.last as int;
    var far := ahead < -2 * h.backMax;
    [if r.sync then 0 else 1, if r.meta then 0 else 1, if far then 1 else 0,
     if far then r.sector else if ahead >= 0 then ahead else -ahead * h.penalty, -(r.sector as int)]
  }

  predicate Less(a: seq<int>, b: seq<int>) {
    b != [] && (a == [] || a[0] < b[0] || (a[0] == b[0] && Less(a[1..], b[1..])))
  }

  /** The choice is the one of least cost, whichever way round the two are given. */
  lemma ChooseIsCheapest(h: Head, a: Rq, b: Rq)
    requires a.sector != b.sector
    ensures Choose(h, Some(a), Some(b)) == Choose(h, Some(b), Some(a)) ==
      if Less(Cost(h, a), Cost(h, b)) then Some(a) else Some(b)
    ensures Less(Cost(h, a), Cost(h, b)) <==> !Less(Cost(h, b), Cost(h, a))
  {
    var x, y := Cost(h, a), Cost(h, b);
    Unfold5(x, y);
    Unfold5(y, x);
  }

  lemma Unfold5(x: seq<int>, y: seq<int>)
    requires |x| == |y| == 5
    ensures Less(x, y) <==>
      x[0] < y[0] || (x[0] == y[0] && (x[1] < y[1] || (x[1] == y[1] && (x[2] < y[2] || (x[2] == y[2] &&
      (x[3] < y[3] || (x[3] == y[3] && x[4] < y[4])))))))
  {
    assert x[1..][1..] == x[2..] && x[2..][1..] == x[3..] && x[3..][1..] == x[4..] && x[4..][1..] == [];
    assert y[1..][1..] == y[2..] && y[2..][1..] == y[3..] && y[3..][1..] == y[4..] && y[4..][1..] == [];
    assert Less(x[4..], y[4..]) <==> x[4] < y[4];
    assert Less(x[3..], y[3..]) <==> x[3] < y[3] || (x[3] == y[3] && x[4] < y[4]);
    assert Less(x[2..], y[2..]) <==> x[2] < y[2] || (x[2] == y[2] && Less(x[3..], y[3..]));
    assert Less(x[1..], y[1..]) <==> x[1] < y[1] || (x[1] == y[1] && Less(x[2..], y[2..]));
  }

  // ----- removing and adding -----

  function Without<T>(l: seq<T>, k: nat): seq<T>
    requires k < |l|
  {
    l[..k] + l[k + 1..]
  }

  /** cfq_find_next_rq: the neighbours in the sorted list, wrapping forward to its first. */
  function FindNext(h: Head, sort: seq<Rq>, k: nat): Option<Rq>
    requires k < |sort|
  {
    var prev := if k > 0 then Some(sort[k - 1]) else None;
    var next := if k + 1 < |sort| then Some(sort[k + 1]) else if k > 0 then Some(sort[0]) else None;
    Choose(h, next, prev)
  }

  /** The queue's part of cfq_remove_request. */
  function Removed(h: Head, q: Cfqq, k: nat): Cfqq
    requires k < |q.sort| && q.sort[k].id in q.fifo
  {
    Cfqq(Without(q.sort, k), Remove(q.fifo, q.sort[k].id),
         if q.next == Some(q.sort[k]) then FindNext(h, q.sort, k) else q.next)
  }

  /** elv_rb_add: where a sector belongs. */
  function Slot(sort: seq<Rq>, s: nat): (k: nat)
    ensures k <= |sort|
    ensures forall i :: 0 <= i < k ==> sort[i].sector < s
    ensures k < |sort| ==> sort[k].sector >= s
  {
    if sort == [] || sort[0].sector >= s then 0 else 1 + Slot(sort[1..], s)
  }

  predicate HasAlias(sort: seq<Rq>, s: nat) {
    var k := Slot(sort, s);
    k < |sort| && sort[k].sector == s
  }

  /** The queue's part of cfq_add_rq_rb, once no other request has the sector. */
  function Linked(h: Head, q: Cfqq, x: Rq): Cfqq {
    q.(sort := InsertAt(q.sort, Slot(q.sort, x.sector), x), next := Choose(h, q.next, Some(x)))
  }

  /** cfq_reposition_rq_rb, first half: the request leaves the sorted list with its new sector, and
      nothing else changes. */
  function TakenOut(q: Cfqq, k: nat, s: nat): Cfqq
    requires k < |q.sort|
  {
    var x := q.sort[k];
    q.(sort := Without(q.sort, k), next := if q.next == Some(x) then Some(x.(sector := s)) else q.next)
  }

  // ----- what a queue keeps -----

  predicate Ascending(sort: seq<Rq>) {
    forall i, j :: 0 <= i < j < |sort| ==> sort[i].sector < sort[j].sector && sort[i].id != sort[j].id
  }

  function Ids(sort: seq<Rq>): (r: seq<Id>)
    ensures |r| == |sort|
    ensures forall i :: 0 <= i < |r| ==> r[i] == sort[i].id
  {
    seq(|sort|, i requires 0 <= i < |sort| => sort[i].id)
  }

  /** FIFO and sorted list hold the same requests, but for `out`, which is only in the FIFO. */
  ghost predicate SameRequests(q: Cfqq, out: set<Id>) {
    && NoDup(q.fifo)
    && forall x :: x in q.fifo <==> x in Ids(q.sort) || x in out
  }

  /** next_rq is NULL exactly when the sorted list is empty, and otherwise one of it. */
  ghost predicate NextOk(q: Cfqq) {
    if q.sort == [] then q.next == None else q.next != None && q.next.value in q.sort
  }

  ghost predicate Good(q: Cfqq) { Ascending(q.sort) && SameRequests(q, {}) && NextOk(q) }

  /** The same while `x` is out of the sorted list: next_rq may still be `x`. */
  ghost predicate GoodBut(q: Cfqq, x: Rq) {
    && Ascending(q.sort) && SameRequests(q, {x.id}) && x.id !in Ids(q.sort)
    && (q.next == Some(x) || NextOk(q))
  }

  lemma ChooseIsOne(h: Head, a: Option<Rq>, b: Option<Rq>)
    ensures Choose(h, a, b) == a || Choose(h, a, b) == b
    ensures Choose(h, a, b) == None <==> a == None && b == None
  {
  }

  lemma WithoutFacts(sort: seq<Rq>, k: nat)
    requires Ascending(sort) && k < |sort|
    ensures
      var r := Without(sort, k);
      && Ascending(r)
      && (forall x :: x in r <==> x in sort && x != sort[k])
      && (forall i :: i in Ids(r) <==> i in Ids(sort) && i != sort[k].id)
  {
    hide Ids;
    var r := Without(sort, k);
    forall x | x in sort && x != sort[k] ensures x in r {
      var i :| 0 <= i < |sort| && sort[i] == x;
      assert r[if i < k then i else i - 1] == x;
    }
    WithoutIds(sort, k);
    assert forall i :: 0 <= i < |r| ==> r[i] == sort[if i < k then i else i + 1];
  }

  lemma WithoutIds(sort: seq<Rq>, k: nat)
    requires Ascending(sort) && k < |sort|
    ensures forall i :: i in Ids(Without(sort, k)) <==> i in Ids(sort) && i != sort[k].id
  {
    IdsDistinct(sort);
    assert Ids(Without(sort, k)) == Ids(sort)[..k] + Ids(sort)[k + 1..];
    hide Ids, Without, Ascending;
    DropAt(Ids(sort), k);
  }

  lemma IdsDistinct(sort: seq<Rq>)
    requires Ascending(sort)
    ensures NoDup(Ids(sort))
  {
  }

  lemma DropAt(l: seq<Id>, k: nat)
    requires NoDup(l) && k < |l|
    ensures forall x :: x in l[..k] + l[k + 1..] <==> x in l && x != l[k]
  {
    var d := l[..k] + l[k + 1..];
    assert l == l[..k] + [l[k]] + l[k + 1..];
    assert forall i :: 0 <= i < |d| ==> d[i] == l[if i < k then i else i + 1];
  }

  lemma FindNextFacts(h: Head, sort: seq<Rq>, k: nat)
    requires Ascending(sort) && k < |sort|
    ensures
      var n := FindNext(h, sort, k);
      if |sort| == 1 then n == None else n != None && n.value in Without(sort, k)
  {
    WithoutFacts(sort, k);
    var prev := if k > 0 then Some(sort[k - 1]) else None;
    var next := if k + 1 < |sort| then Some(sort[k + 1]) else if k > 0 then Some(sort[0]) else None;
    ChooseIsOne(h, next, prev);
  }

  /** Removing a request from a list that it may share with one on the move. */
  lemma RemovedNext(h: Head, q: Cfqq, k: nat, x: Option<Rq>)
    requires Ascending(q.sort) && k < |q.sort| && q.sort[k].id in q.fifo
    requires NextOk(q) || (q.next == x && x != None && x.value != q.sort[k])
    ensures NextOk(Removed(h, q, k)) || Removed(h, q, k).next == x
  {
    hide Ascending, FindNext;
    WithoutFacts(q.sort, k);
    FindNextFacts(h, q.sort, k);
  }

  lemma RemovedSame(h: Head, q: Cfqq, k: nat, out: set<Id>)
    requires Ascending(q.sort) && k < |q.sort| && SameRequests(q, out) && q.sort[k].id !in out
    ensures q.sort[k].id in q.fifo && SameRequests(Removed(h, q, k), out)
  {
    WithoutFacts(q.sort, k);
    assert Ids(q.sort)[k] in Ids(q.sort);
    RemoveFacts(q.fifo, q.sort[k].id);
  }

  lemma RemovedGood(h: Head, q: Cfqq, k: nat)
    requires Good(q) && k < |q.sort|
    ensures q.sort[k].id in q.fifo && Good(Removed(h, q, k)) && |Removed(h, q, k).sort| == |q.sort| - 1
    ensures q.sort[k].id !in Removed(h, q, k).fifo
  {
    RemovedSame(h, q, k, {});
    RemovedNext(h, q, k, None);
    WithoutFacts(q.sort, k);
    RemoveFacts(q.fifo, q.sort[k].id);
    hide FindNext, Ascending;
  }

  lemma RemovedGoodBut(h: Head, q: Cfqq, k: nat, x: Rq)
    requires GoodBut(q, x) && k < |q.sort|
    ensures q.sort[k].id in q.fifo && GoodBut(Removed(h, q, k), x) && |Removed(h, q, k).sort| == |q.sort| - 1
  {
    hide FindNext, Ascending;
    assert Ids(q.sort)[k] in Ids(q.sort);
    RemovedSame(h, q, k, {x.id});
    RemovedNext(h, q, k, Some(x));
    WithoutFacts(q.sort, k);
  }

  lemma InsertAscending(sort: seq<Rq>, x: Rq)
    requires Ascending(sort) && !HasAlias(sort, x.sector) && x.id !in Ids(sort)
    ensures
      var r := InsertAt(sort, Slot(sort, x.sector), x);
      && Ascending(r) && x in r && |r| == |sort| + 1
      && (forall y :: y in sort ==> y in r)
      && (forall y :: y in Ids(r) <==> y in Ids(sort) || y == x.id)
  {
    hide Ids, Slot, HasAlias, Ascending, InsertAt;
    var k := Slot(sort, x.sector);
    InsertFacts(sort, k, x);
    InsertIds(sort, k, x);
    SlotGap(sort, x.sector);
    NotThere(sort, x.id);
    InsertBetween(sort, k, x);
  }

  /** Without an alias, all behind the place of a sector lie beyond it. */
  lemma SlotGap(sort: seq<Rq>, s: nat)
    requires Ascending(sort) && !HasAlias(sort, s)
    ensures forall i :: Slot(sort, s) <= i < |sort| ==> sort[i].sector > s
  {
    hide Ids;
  }

  lemma NotThere(sort: seq<Rq>, x: Id)
    requires x !in Ids(sort)
    ensures forall i :: 0 <= i < |sort| ==> sort[i].id != x
  {
    forall i | 0 <= i < |sort| ensures sort[i].id != x {
      assert Ids(sort)[i] == sort[i].id;
    }
  }

  lemma InsertBetween(sort: seq<Rq>, k: nat, x: Rq)
    requires Ascending(sort) && k <= |sort| && forall i :: 0 <= i < |sort| ==> sort[i].id != x.id
    requires forall i :: 0 <= i < k ==> sort[i].sector < x.sector
    requires forall i :: k <= i < |sort| ==> sort[i].sector > x.sector
    ensures Ascending(InsertAt(sort, k, x))
  {
    var r := InsertAt(sort, k, x);
    InsertFacts(sort, k, x);
    hide InsertAt;
    forall i, j | 0 <= i < j < |r| ensures r[i].sector < r[j].sector && r[i].id != r[j].id {
      if i != k && j != k {
        assert r[i] == sort[if i < k then i else i - 1] && r[j] == sort[if j < k then j else j - 1];
      }
    }
  }

  lemma InsertIds(sort: seq<Rq>, k: nat, x: Rq)
    requires k <= |sort|
    ensures forall y :: y in Ids(InsertAt(sort, k, x)) <==> y in Ids(sort) || y == x.id
  {
    assert Ids(InsertAt(sort, k, x)) == InsertAt(Ids(sort), k, x.id);
    InsertFacts(Ids(sort), k, x.id);
  }

  lemma LinkedGood(h: Head, q: Cfqq, x: Rq)
    requires GoodBut(q, x) && !HasAlias(q.sort, x.sector)
    ensures Good(Linked(h, q, x)) && |Linked(h, q, x).sort| == |q.sort| + 1
  {
    hide Ascending, Choose, InsertAt;
    InsertAscending(q.sort, x);
    ChooseIsOne(h, q.next, Some(x));
  }

  /** A new request joins both lists. */
  lemma JoinGoodBut(q: Cfqq, x: Rq)
    requires Good(q) && x.id !in q.fifo
    ensures GoodBut(q.(fifo := q.fifo + [x.id]), x)
  {
    hide Ascending;
  }

  lemma TakenOutGoodBut(q: Cfqq, k: nat, s: nat)
    requires Good(q) && k < |q.sort|
    ensures GoodBut(TakenOut(q, k, s), q.sort[k].(sector := s)) && |TakenOut(q, k, s).sort| == |q.sort| - 1
  {
    hide Ascending;
    WithoutFacts(q.sort, k);
    assert Ids(q.sort)[k] in Ids(q.sort);
  }

  /** Once the request with the sector has been removed, no other has it. */
  lemma AliasGone(sort: seq<Rq>, s: nat)
    requires Ascending(sort) && HasAlias(sort, s)
    ensures !HasAlias(Without(sort, Slot(sort, s)), s)
  {
    var k := Slot(sort, s);
    var r := Without(sort, k);
    forall i | 0 <= i < |r| ensures r[i].sector != s {
      assert r[i] == sort[if i < k then i else i + 1];
    }
  }

  lemma AliasExact(sort: seq<Rq>, s: nat)
    requires Ascending(sort)
    ensures HasAlias(sort, s) <==> exists r :: r in sort && r.sector == s
  {
    if r :| r in sort && r.sector == s {
      var i :| 0 <= i < |sort| && sort[i] == r;
      assert Slot(sort, s) <= i;
      assert Slot(sort, s) == i;
    }
  }
}

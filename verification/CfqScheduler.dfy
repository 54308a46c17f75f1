/** struct cfq_data of block/cfq-iosched.c as an object that the scheduler's functions update.  The
    methods follow the code: the leftmost node is cached, the counters are kept by hand, and the
    two dispatch paths are loops.  Each is tied to the function of Cfq or CfqQueue it performs,
    whose lemmas say that the caches stay true. */
module CfqScheduler {
  import opened Options
  import opened Lists
  import opened CfqQueue
  import opened Cfq

  class Scheduler {
    var qs: seq<Cfqq>
    var root: Root
    var busy: nat
    var queued: nat
    var active: Option<nat>
    var moved: seq<Id>

    function State(): Data
      reads this
    {
      Data(qs, root, busy, queued, active, moved)
    }

    /** cfq_rb_first */
    method RbFirst() returns (r: Option<nat>)
      modifies this`root
      ensures (root, r) == First(old(root))
    {
      if root.left == None && root.order != [] {
        root := root.(left := Some(root.order[0]));
      }
      r := root.left;
    }

    /** cfq_rb_erase */
    method RbErase(i: nat)
      requires i in root.order
      modifies this`root
      ensures root == Erased(old(root), i)
    {
      if root.left == Some(i) {
        root := root.(left := None);
      }
      root := root.(order := Remove(root.order, i));
    }

    /** cfq_del_cfqq_rr */
    method DelCfqqRr(i: nat)
      requires i in root.order && busy > 0
      modifies this`root, this`busy
      ensures State() == DelRr(old(State()), i)
    {
      RbErase(i);
      busy := busy - 1;
    }

    /** cfq_add_cfqq_rr, with the place that cfq_service_tree_add finds. */
    method AddCfqqRr(i: nat, pos: nat)
      requires pos <= |root.order|
      modifies this`root, this`busy
      ensures State() == AddRr(old(State()), i, pos)
    {
      busy := busy + 1;
      var left := if pos == 0 then Some(i) else root.left;
      root := Root(InsertAt(root.order, pos, i), left);
    }

    /** cfq_remove_request with cfq_del_rq_rb */
    method RemoveRequest(h: Head, i: nat, k: nat)
      requires Removable(State(), i, k)
      modifies this`qs, this`root, this`busy, this`queued
      ensures State() == RemoveRq(h, old(State()), i, k)
    {
      hide FindNext, Erased;
      var q := qs[i];
      var rq := q.sort[k];
      var next := q.next;
      if q.next == Some(rq) {
        next := FindNext(h, q.sort, k);
      }
      qs := qs[i := Cfqq(Without(q.sort, k), Remove(q.fifo, rq.id), next)];
      queued := queued - 1;
      if qs[i].sort == [] && i in root.order {
        DelCfqqRr(i);
      }
    }

    /** cfq_dispatch_insert */
    method MoveToDispatch(h: Head, i: nat, k: nat)
      requires Removable(State(), i, k)
      modifies this`qs, this`root, this`busy, this`queued, this`moved
      ensures State() == DispatchInsert(h, old(State()), i, k)
    {
      hide RemoveRq;
      var x := qs[i].sort[k].id;
      RemoveRequest(h, i, k);
      moved := moved + [x];
    }

    /** cfq_add_rq_rb, of a request that is in the FIFO but not in the sorted list. */
    method AddRqRb(h: Head, i: nat, x: Rq, pos: nat, ghost extra: nat)
      requires InvBut(State(), i, x, extra) && extra <= 1
      modifies this`qs, this`root, this`busy, this`queued, this`moved
      ensures Addable(old(State()), i, x) && State() == AddRb(h, old(State()), i, x, pos)
    {
      hide InvBut, DispatchInsert, Linked, Removable;
      ghost var d := State();
      ClearAliasKeeps(h, d, i, x, extra);
      AddableQueue(d, i, x);
      ghost var cleared := false;
      var k := Slot(qs[i].sort, x.sector);
      while k < |qs[i].sort| && qs[i].sort[k].sector == x.sector
        invariant i < |qs| && k == Slot(qs[i].sort, x.sector)
        invariant if cleared then State() == ClearAlias(h, d, i, x) && !HasAlias(qs[i].sort, x.sector) else State() == d
        decreases !cleared
      {
        MoveToDispatch(h, i, k);
        cleared := true;
        k := Slot(qs[i].sort, x.sector);
      }
      assert State() == ClearAlias(h, d, i, x);
      Link(h, i, x, pos);
    }

    /** Its end: the request is linked, the queue put on the tree, and next_rq chosen anew. */
    method Link(h: Head, i: nat, x: Rq, pos: nat)
      requires i < |qs|
      modifies this`qs, this`root, this`busy
      ensures
        var d := old(State());
        var d2 := if i in d.root.order then d else AddRr(d, i, Clamp(pos, |d.root.order|));
        State() == d2.(qs := d2.qs[i := Linked(h, d2.qs[i], x)])
    {
      hide Choose, Slot, InsertAt;
      qs := qs[i := qs[i].(sort := InsertAt(qs[i].sort, Slot(qs[i].sort, x.sector), x))];
      if i !in root.order {
        AddCfqqRr(i, Clamp(pos, |root.order|));
      }
      qs := qs[i := qs[i].(next := Choose(h, qs[i].next, Some(x)))];
    }

    /** cfq_insert_request */
    method InsertRequest(h: Head, i: nat, x: Rq, pos: nat)
      requires Inv(State()) && i < |qs| && x.id !in qs[i].fifo
      modifies this
      ensures Addable(Joined(old(State()), i, x), i, x)
      ensures State() == Inserted(h, old(State()), i, x, pos) && Inv(State())
    {
      hide Inv, InvBut, AddRb, Addable;
      ghost var d := State();
      InsertKeeps(h, d, i, x, pos);
      JoinedBut(d, i, x);
      qs := qs[i := qs[i].(fifo := qs[i].fifo + [x.id])];
      AddRqRb(h, i, x, pos, 0);
      queued := queued + 1;
    }

    /** cfq_reposition_rq_rb */
    method RepositionRqRb(h: Head, i: nat, k: nat, s: nat, pos: nat)
      requires Inv(State()) && i < |qs| && k < |qs[i].sort|
      modifies this
      ensures Addable(TakeOut(old(State()), i, k, s), i, old(qs[i].sort[k]).(sector := s))
      ensures State() == Repositioned(h, old(State()), i, k, s, pos) && Inv(State())
    {
      hide Inv, InvBut, AddRb, Addable, TakenOut;
      ghost var d := State();
      RepositionKeeps(h, d, i, k, s, pos);
      TakeOutBut(d, i, k, s);
      var x := qs[i].sort[k].(sector := s);
      qs := qs[i := TakenOut(qs[i], k, s)];
      AddRqRb(h, i, x, pos, 1);
    }

    /** __cfq_forced_dispatch_cfqq */
    method ForcedDispatchQueue(h: Head, i: nat) returns (dispatched: nat)
      requires Inv(State()) && i < |qs|
      modifies this
      ensures State() == Drained(h, old(State()), i).0 && dispatched == Drained(h, old(State()), i).1
      ensures Inv(State())
    {
      hide Inv, Drained, Good, Account;
      dispatched := 0;
      ghost var r := Drained(h, State(), i);
      while qs[i].next != None
        invariant Inv(State()) && i < |qs| == old(|qs|)
        invariant r.0 == Drained(h, State(), i).0 && r.1 == Drained(h, State(), i).1 + dispatched
        decreases |qs[i].sort|
      {
        ServeNext(h, i);
        dispatched := dispatched + 1;
      }
      DrainEnd(h, State(), i);
    }

    /** One request, next_rq, goes to the dispatch list. */
    method ServeNext(h: Head, i: nat)
      requires Inv(State()) && i < |qs| && qs[i].next != None
      modifies this`qs, this`root, this`busy, this`queued, this`moved
      ensures Inv(State()) && |qs| == old(|qs|) && |qs[i].sort| < |old(qs[i].sort)|
      ensures Drained(h, old(State()), i) == (Drained(h, State(), i).0, Drained(h, State(), i).1 + 1)
    {
      hide Inv, Drained, DispatchInsert, Good, Removable;
      DrainStep(h, State(), i);
      var k := Index(qs[i].sort, qs[i].next.value);
      MoveToDispatch(h, i, k);
    }

    /** __cfq_dispatch_requests: a queue with requests gets to dispatch up to as many as `expired` is
        long; an entry says whether cfq_check_fifo gives the head of the FIFO or NULL. */
    method DispatchRequests(h: Head, i: nat, expired: seq<bool>) returns (dispatched: nat)
      requires Inv(State()) && i < |qs| && qs[i].sort != []
      modifies this
      ensures State() == Round(h, old(State()), i, expired).0 && dispatched == Round(h, old(State()), i, expired).1
      ensures Inv(State())
    {
      hide Inv, Round, Good, Account, DispatchInsert;
      dispatched := 0;
      ghost var r := Round(h, State(), i, expired);
      var rest := expired;
      while rest != [] && qs[i].sort != []
        invariant Inv(State()) && i < |qs|
        invariant r.0 == Round(h, State(), i, rest).0 && r.1 == Round(h, State(), i, rest).1 + dispatched
        decreases |rest|
      {
        ServeOne(h, i, rest);
        rest := rest[1..];
        dispatched := dispatched + 1;
      }
      RoundEnd(h, State(), i, rest);
    }

    /** The body of that loop. */
    method ServeOne(h: Head, i: nat, rest: seq<bool>)
      requires Inv(State()) && i < |qs| && rest != [] && qs[i].sort != []
      modifies this
      ensures Inv(State()) && |qs| == old(|qs|)
      ensures Round(h, old(State()), i, rest).0 == Round(h, State(), i, rest[1..]).0
      ensures Round(h, old(State()), i, rest).1 == Round(h, State(), i, rest[1..]).1 + 1
    {
      hide Inv, Round, Good, Account, DispatchInsert, Removable;
      RoundStep(h, State(), i, rest);
      var q := qs[i];
      var k := if rest[0] then Index(Ids(q.sort), q.fifo[0]) else Index(q.sort, q.next.value);
      MoveToDispatch(h, i, k);
    }

    /** cfq_slice_expired */
    method SliceExpired(pos: nat)
      requires Inv(State())
      modifies this
      ensures State() == Expired(old(State()), pos) && Inv(State())
    {
      hide Inv, Placed, Clamp;
      ExpireKeeps(State(), pos);
      if active != None {
        if active.value in root.order {
          RbErase(active.value);
          root := Placed(root, active.value, Clamp(pos, |root.order|));
        }
        active := None;
      }
    }

    /** cfq_forced_dispatch */
    method ForcedDispatch(h: Head, pos: nat) returns (dispatched: nat)
      requires Inv(State())
      modifies this
      ensures State() == Forced(h, old(State()), pos).0 && dispatched == Forced(h, old(State()), pos).1
      ensures Inv(State())
    {
      hide Inv, Drained, ForcedLoop, Cached, First, Good, Account, Expired, Forced;
      dispatched := 0;
      ghost var d := State();
      ghost var r := ForcedLoop(h, d);
      ForcedIs(h, d, pos);
      ForcedSame(h, d);
      var first := LookAtTree();
      while first != None
        invariant Inv(State()) && State() == Cached(State()) && first == First(root).1
        invariant r.0 == ForcedLoop(h, State()).0 && r.1 == ForcedLoop(h, State()).1 + dispatched
        decreases queued
      {
        ForcedStep(h, State());
        var n := ForcedDispatchQueue(h, first.value);
        dispatched := dispatched + n;
        ForcedSame(h, State());
        first := LookAtTree();
      }
      ForcedStep(h, State());
      SliceExpired(pos);
    }

    method LookAtTree() returns (first: Option<nat>)
      requires Inv(State())
      modifies this`root
      ensures State() == Cached(old(State())) && Inv(State())
      ensures State() == Cached(State()) && first == First(root).1
    {
      hide Inv;
      CachedKeeps(State());
      first := RbFirst();
    }

    /** cfq_select_queue */
    method SelectQueue(used: bool, idle: bool, pos: nat) returns (r: Option<nat>)
      requires Inv(State())
      modifies this
      ensures Inv(State()) && (State(), r) == Selected(old(State()), used, idle, pos)
    {
      hide Inv, Expired, First;
      SelectionHasWork(State(), used, idle, pos);
      ghost var d := State();
      if active != None && !used {
        ActiveThere(State());
        if qs[active.value].sort != [] {
          return active;
        }
        if idle {
          return None;
        }
      }
      SliceExpired(pos);
      r := RbFirst();
      active := r;
    }
  }

  lemma QueueGood(d: Data, i: nat)
    requires Inv(d) && i < |d.qs|
    ensures d.qs[i].next != None ==> d.qs[i].next.value in d.qs[i].sort
  {
    assert Good(d.qs[i]);
  }

  lemma RoundEnd(h: Head, d: Data, i: nat, expired: seq<bool>)
    requires Inv(d) && i < |d.qs| && (expired == [] || d.qs[i].sort == [])
    ensures Round(h, d, i, expired) == (d, 0)
  {
  }

  lemma RoundStep(h: Head, d: Data, i: nat, expired: seq<bool>)
    requires Inv(d) && i < |d.qs| && expired != [] && d.qs[i].sort != []
    ensures
      var q := d.qs[i];
      if expired[0] then q.fifo != [] && q.fifo[0] in Ids(q.sort) else q.next != None && q.next.value in q.sort
    ensures
      var q := d.qs[i];
      var k := if expired[0] then Index(Ids(q.sort), q.fifo[0]) else Index(q.sort, q.next.value);
      && Removable(d, i, k)
      && var e := DispatchInsert(h, d, i, k);
      Inv(e) && |e.qs| == |d.qs| &&
      Round(h, d, i, expired).0 == Round(h, e, i, expired[1..]).0 &&
      Round(h, d, i, expired).1 == Round(h, e, i, expired[1..]).1 + 1
  {
    var k := Pick(d.qs[i], expired[0]);
    QueueGood(d, i);
    assert Good(d.qs[i]);
    assert d.qs[i].fifo != [] ==> d.qs[i].fifo[0] in d.qs[i].fifo;
    DispatchKeeps(h, d, i, k);
    hide DispatchInsert, Inv, Account;
  }

  lemma DrainEnd(h: Head, d: Data, i: nat)
    requires Inv(d) && i < |d.qs| && d.qs[i].next == None
    ensures Drained(h, d, i) == (d, 0)
  {
  }

  lemma DrainStep(h: Head, d: Data, i: nat)
    requires Inv(d) && i < |d.qs| && d.qs[i].next != None
    ensures d.qs[i].next.value in d.qs[i].sort
    ensures
      var k := Index(d.qs[i].sort, d.qs[i].next.value);
      && Removable(d, i, k)
      && var e := DispatchInsert(h, d, i, k);
      Inv(e) && |e.qs| == |d.qs| && |e.qs[i].sort| == |d.qs[i].sort| - 1 &&
      Drained(h, d, i) == (Drained(h, e, i).0, Drained(h, e, i).1 + 1)
  {
    QueueGood(d, i);
    DispatchKeeps(h, d, i, Index(d.qs[i].sort, d.qs[i].next.value));
    assert Good(d.qs[i]);
    hide DispatchInsert, Inv;
  }

  lemma ForcedIs(h: Head, d: Data, pos: nat)
    requires Inv(d)
    ensures Forced(h, d, pos) == (Expired(ForcedLoop(h, d).0, pos), ForcedLoop(h, d).1)
  {
  }

  lemma ForcedSame(h: Head, d: Data)
    requires Inv(d)
    ensures Inv(Cached(d)) && ForcedLoop(h, Cached(d)) == ForcedLoop(h, d)
  {
    hide Inv, First, Drained, Cached, Good, Account;
    CachedKeeps(d);
  }

  /** The first queue of the tree is drained, or the loop is over. */
  lemma ForcedStep(h: Head, d: Data)
    requires Inv(d) && d == Cached(d)
    ensures
      var first := First(d.root).1;
      && (first == None ==> ForcedLoop(h, d) == (d, 0))
      && (first != None ==>
            && first.value < |d.qs| && Inv(Drained(h, d, first.value).0)
            && Drained(h, d, first.value).0.queued < d.queued
            && var e := Drained(h, d, first.value);
            ForcedLoop(h, d).0 == ForcedLoop(h, e.0).0 && ForcedLoop(h, d).1 == ForcedLoop(h, e.0).1 + e.1)
  {
    hide Inv, First, Drained, Cached;
    CachedKeeps(d);
  }

  lemma ActiveThere(d: Data)
    requires Inv(d)
    ensures d.active != None ==> d.active.value < |d.qs|
  {
  }

  lemma AddableQueue(d: Data, i: nat, x: Rq)
    requires Addable(d, i, x)
    ensures i < |d.qs|
  {
  }
}

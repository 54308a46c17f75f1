/** The deadline scheduler as the code runs it: an object with two sorted lists, two FIFOs, two next
    pointers and the counters, updated in place.  Every method is tied to its step in Deadline,
    so that the agreement of the indexes and the bounds proved over runs hold of every sequence
    of calls. */
module DeadlineScheduler {
  import opened Options
  import opened Lists
  import opened Deadline
  import opened DeadlineSteps
  import opened DeadlineTheorems

  /** What the alias loop does: nothing, or one turn after which there is no alias. */
  lemma Cleared(dd: DD, d: Dir, s: nat, out: set<nat>) returns (dd1: DD)
    requires SideOk(dd.sector, dd.expires, Get(dd, d), out)
    requires SideOk(dd.sector, dd.expires, Get(dd, Other(d)), {})
    requires forall x :: x in Get(dd, d).fifo ==> x !in Get(dd, Other(d)).fifo
    requires dd.rd.next.None? || dd.wr.next.None?
    ensures forall x :: x in Get(dd, d).sort ==> x in dd.sector && x in Get(dd, d).fifo
    ensures dd1 == ClearSector(dd, d, s) == dd.(rd := dd1.rd, wr := dd1.wr, dispatched := dd1.dispatched)
    ensures
      var alias := Find(dd.sector, Get(dd, d).sort, s);
      if alias.None? then dd1 == dd
      else alias.value in Get(dd, d).sort && dd1 == MoveRequest(dd, d, alias.value) && dd1 != dd
    ensures forall x :: x in Get(dd1, d).sort ==> x in dd.sector && x in Get(dd, d).sort
    ensures Find(dd.sector, Get(dd1, d).sort, s) == None
  {
    hide MoveRequest, Remove, Ascending, ByExpiry;
    ClearOk(dd, d, out, s);
    dd1 := ClearSector(dd, d, s);
  }

  class Scheduler {
    const tun: Tunables
    var rd: Side
    var wr: Side
    var sector: map<nat, nat>
    var expires: map<nat, int>
    var batching: nat
    var starved: nat
    var dispatched: seq<nat>

    ghost function State(): DD
      reads this
    {
      DD(tun, rd, wr, sector, expires, batching, starved, dispatched)
    }

    constructor (tun: Tunables)
      ensures State() == Init(tun)
    {
      this.tun := tun;
      rd, wr := Side([], [], None), Side([], [], None);
      sector, expires := map[], map[];
      batching, starved, dispatched := 0, 0, [];
    }

    function Half(d: Dir): Side
      reads this
    {
      if d.READ? then rd else wr
    }

    method SetHalf(d: Dir, s: Side)
      modifies this`rd, this`wr
      ensures State() == Put(old(State()), d, s)
    {
      if d.READ? { rd := s; } else { wr := s; }
    }

    /** elv_rb_find: a walk over the keys in order. */
    method RbFind(d: Dir, s: nat) returns (r: Option<nat>)
      requires forall x :: x in Half(d).sort ==> x in sector
      ensures r == Find(sector, Half(d).sort, s)
    {
      var l := Half(d).sort;
      var i := 0;
      while i < |l|
        invariant i <= |l|
        invariant Find(sector, l, s) == Find(sector, l[i..], s)
      {
        if sector[l[i]] == s { return Some(l[i]); }
        assert l[i..][1..] == l[i + 1..];
        i := i + 1;
      }
      r := None;
    }

    /** elv_rb_add: where the walk links the new node. */
    method RbSlot(d: Dir, s: nat) returns (k: nat)
      requires forall x :: x in Half(d).sort ==> x in sector
      ensures k == Slot(sector, Half(d).sort, s)
    {
      var l := Half(d).sort;
      k := 0;
      while k < |l| && sector[l[k]] < s
        invariant k <= |l|
        invariant Slot(sector, l, s) == k + Slot(sector, l[k..], s)
      {
        assert l[k..][1..] == l[k + 1..];
        k := k + 1;
      }
    }

    /** deadline_remove_request */
    method RemoveRequest(d: Dir, r: nat)
      requires r in Half(d).sort && r in Half(d).fifo
      modifies this`rd, this`wr
      ensures State() == Put(old(State()), d, RemoveFrom(Get(old(State()), d), r))
    {
      var s := Half(d);
      var next := if s.next == Some(r) then Latter(s.sort, r) else s.next;
      SetHalf(d, Side(Remove(s.sort, r), Remove(s.fifo, r), next));
    }

    /** deadline_move_request with deadline_move_to_dispatch */
    method Move(d: Dir, r: nat)
      requires r in Half(d).sort && r in Half(d).fifo
      modifies this`rd, this`wr, this`dispatched
      ensures State() == MoveRequest(old(State()), d, r)
    {
      var latter := Latter(Half(d).sort, r);
      rd, wr := rd.(next := None), wr.(next := None);
      SetHalf(d, Half(d).(next := latter));
      RemoveRequest(d, r);
      dispatched := dispatched + [r];
    }

    /** The alias loop of deadline_add_rq_rb.  It turns once at most, since sectors are distinct. */
    method ClearAlias(d: Dir, s: nat, ghost out: set<nat>)
      requires SideOk(sector, expires, Half(d), out)
      requires SideOk(sector, expires, Half(Other(d)), {})
      requires forall x :: x in Half(d).fifo ==> x !in Half(Other(d)).fifo
      requires rd.next.None? || wr.next.None?
      modifies this`rd, this`wr, this`dispatched
      ensures State() == ClearSector(old(State()), d, s)
    {
      hide SideOk, Find, ClearSector, MoveRequest;
      ghost var q := State();
      ghost var q1 := Cleared(q, d, s, out);
      var alias := RbFind(d, s);
      while alias.Some?
        invariant State() == q || State() == q1
        invariant forall x :: x in Half(d).sort ==> x in sector
        invariant alias == Find(sector, Half(d).sort, s)
        invariant State() == q ==> alias.Some? || q1 == q
        decreases State() != q1
      {
        Move(d, alias.value);
        alias := RbFind(d, s);
      }
    }

    /** elv_rb_add of a request whose sector is free. */
    method RbAdd(d: Dir, r: nat)
      requires r in sector && forall x :: x in Half(d).sort ==> x in sector
      modifies this`rd, this`wr
      ensures State() == Insert(old(State()), d, r)
    {
      var k := RbSlot(d, sector[r]);
      SetHalf(d, Half(d).(sort := InsertAt(Half(d).sort, k, r)));
    }

    /** rq_set_fifo_time and list_add_tail */
    method FifoAdd(d: Dir, r: nat, now: int)
      modifies this`rd, this`wr, this`expires
      ensures State() == Queued(old(State()), d, r, now)
    {
      expires := expires[r := now + Expire(Init(tun), d)];
      SetHalf(d, Half(d).(fifo := Half(d).fifo + [r]));
    }

    /** deadline_add_request */
    method Add(d: Dir, r: nat, s: nat, now: int)
      requires Agree(State()) && r !in sector
      modifies this`rd, this`wr, this`dispatched, this`sector, this`expires
      ensures State() == AddRequest(old(State()), d, r, s, now)
    {
      hide SideOk, Agree, ClearSector, Insert, AddRequest, JoinFifo, Queued;
      ghost var q := State();
      AddCleared(q, d, r, s, now);
      ClearAlias(d, s, {});
      sector := sector[r := s];
      RbAdd(d, r);
      FifoAdd(d, r, now);
    }

    /** deadline_merged_request for a front merge. */
    method FrontMerge(d: Dir, r: nat, s: nat)
      requires Agree(State()) && r in Half(d).sort
      modifies this`rd, this`wr, this`dispatched, this`sector
      ensures State() == FrontMerged(old(State()), d, r, s)
    {
      hide SideOk, Agree, ClearSector, Insert, FrontMerged, Remove;
      ghost var q := State();
      FrontOut(q, d, r);
      FrontCleared(q, d, r, s);
      SetHalf(d, Half(d).(sort := Remove(Half(d).sort, r)));
      ClearAlias(d, s, {r});
      sector := sector[r := s];
      RbAdd(d, r);
    }

    /** deadline_merged_requests */
    method MergeRequests(d: Dir, r: nat, n: nat)
      requires Agree(State()) && r in Half(d).fifo && n in Half(d).fifo && r != n
      modifies this`rd, this`wr, this`expires
      ensures State() == MergedRequests(old(State()), d, r, n)
    {
      hide SideOk, Agree, MoveBehind, Remove, RemoveFrom, MergedRequests;
      MergeSteps(State(), d, r, n);
      ghost var q := State();
      if expires[n] < expires[r] {
        Inherit(d, r, n);
      }
      RemoveRequest(d, n);
      PutTwice(q, d, Get(q, d).(fifo := MoveBehind(Get(q, d).fifo, r, n)), Half(d));
    }

    /** The request takes the place of the earlier one in the FIFO, and its deadline. */
    method Inherit(d: Dir, r: nat, n: nat)
      requires r in Half(d).fifo && n in Remove(Half(d).fifo, r) && n in expires
      modifies this`rd, this`wr, this`expires
      ensures
        var q := old(State());
        State() == Put(q, d, Get(q, d).(fifo := MoveBehind(Get(q, d).fifo, r, n)))
                   .(expires := q.expires[r := q.expires[n]])
    {
      hide Remove, MoveBehind;
      SetHalf(d, Half(d).(fifo := MoveBehind(Half(d).fifo, r, n)));
      expires := expires[r := expires[n]];
    }

    /** The first half of deadline_dispatch_requests: go on with the batch, or choose the
        direction of a new one. */
    method Choose() returns (p: Plan)
      modifies this`starved
      ensures p == MakePlan(old(State()))
      ensures starved == if p == NewBatch(WRITE) then 0
                         else if p == NewBatch(READ) && wr.fifo != [] then old(starved) + 1
                         else old(starved)
    {
      var anyRead, anyWrite := rd.fifo != [], wr.fifo != [];
      if wr.next.Some? && batching < tun.fifoBatch { return Continue(WRITE, wr.next.value); }
      if wr.next.None? && rd.next.Some? && batching < tun.fifoBatch {
        return Continue(READ, rd.next.value);
      }
      if anyRead {
        if anyWrite {
          var reached := starved >= tun.writesStarved;
          starved := starved + 1;
          if reached {
            starved := 0;
            return NewBatch(WRITE);
          }
        }
        return NewBatch(READ);
      }
      if anyWrite {
        starved := 0;
        return NewBatch(WRITE);
      }
      return Idle;
    }

    /** The second half for a new batch: expired head, end of the sorted list, or next in it. */
    method StartBatch(d: Dir, now: int)
      requires Half(d).fifo != [] && Half(d).fifo[0] in expires
      requires Pick(State(), d, now) in Half(d).sort && Pick(State(), d, now) in Half(d).fifo
      modifies this`rd, this`wr, this`dispatched, this`batching
      ensures State() == MoveRequest(old(State()), d, Pick(old(State()), d, now)).(batching := 1)
    {
      var s := Half(d);
      var r := if now > expires[s.fifo[0]] || s.next.None? then s.fifo[0] else s.next.value;
      Move(d, r);
      batching := 1;
    }

    /** deadline_dispatch_requests */
    method DispatchRequests(now: int) returns (moved: bool)
      requires Agree(State())
      modifies this`rd, this`wr, this`dispatched, this`batching, this`starved
      ensures State() == Dispatch(old(State()), now)
      ensures moved <==> old(rd.fifo) != [] || old(wr.fifo) != []
    {
      hide SideOk, Pick, RemoveFrom, MakePlan, Latter;
      ghost var q := State();
      PlanOk(q, now);
      var p := Choose();
      ghost var q1 := q.(starved := starved);
      assert State() == q1;
      moved := p != Idle;
      if p.Continue? {
        Move(p.d, p.r);
        batching := batching + 1;
      } else if p.NewBatch? {
        assert Pick(q1, p.d, now) == Pick(q, p.d, now) by { PickFrame(q, starved, p.d, now); }
        StartBatch(p.d, now);
      }
    }
  }

  lemma PlanOk(dd: DD, now: int)
    requires Agree(dd)
    ensures var p := MakePlan(dd);
            && (p.Continue? ==> p.r in Get(dd, p.d).sort && p.r in Get(dd, p.d).fifo)
            && (p.NewBatch? ==>
                  && Get(dd, p.d).fifo != [] && Get(dd, p.d).fifo[0] in dd.expires
                  && Pick(dd, p.d, now) in Get(dd, p.d).sort && Pick(dd, p.d, now) in Get(dd, p.d).fifo)
            && (p.Idle? <==> dd.rd.fifo == [] && dd.wr.fifo == [])
  {
  }

  lemma PickFrame(dd: DD, starved: nat, d: Dir, now: int)
    requires Get(dd, d).fifo != [] && Get(dd, d).fifo[0] in dd.expires
    ensures Pick(dd.(starved := starved), d, now) == Pick(dd, d, now)
  {
  }

  function Queued(dd: DD, d: Dir, r: nat, now: int): DD {
    Put(dd, d, Get(dd, d).(fifo := Get(dd, d).fifo + [r]))
    .(expires := dd.expires[r := now + Expire(dd, d)])
  }

  lemma InsertThenQueue(dd: DD, d: Dir, r: nat, s: nat, now: int)
    requires forall x :: x in Get(dd, d).sort ==> x in dd.sector
    ensures Queued(Insert(dd.(sector := dd.sector[r := s]), d, r), d, r, now)
            == Insert(JoinFifo(dd, d, r, s, now), d, r)
  {
  }

  lemma PutTwice(dd: DD, d: Dir, a: Side, b: Side)
    ensures Put(Put(dd, d, a), d, b) == Put(dd, d, b) && Get(Put(dd, d, a), d) == a
  {
  }

  /** What an addition comes to once the alias is gone. */
  lemma AddCleared(dd: DD, d: Dir, r: nat, s: nat, now: int)
    requires Agree(dd)
    ensures SideOk(dd.sector, dd.expires, Get(dd, d), {}) && SideOk(dd.sector, dd.expires, Get(dd, Other(d)), {})
    ensures (forall x :: x in Get(dd, d).fifo ==> x !in Get(dd, Other(d)).fifo)
            && (dd.rd.next.None? || dd.wr.next.None?)
    ensures forall x :: x in Get(dd, d).sort ==> x in dd.sector && x in Get(dd, d).fifo
    ensures
      var q := ClearSector(dd, d, s);
      && q.sector == dd.sector && (forall x :: x in Get(q, d).sort ==> x in q.sector)
      && AddRequest(dd, d, r, s, now) == Queued(Insert(q.(sector := q.sector[r := s]), d, r), d, r, now)
  {
    hide ClearSector, Insert, JoinFifo, Queued, Ascending, ByExpiry;
    ClearSectorSorted(dd, d, s);
    InsertThenQueue(ClearSector(dd, d, s), d, r, s, now);
  }

  /** The request is out of the sorted list: an alias may be evicted. */
  lemma FrontOut(dd: DD, d: Dir, r: nat)
    requires Agree(dd) && r in Get(dd, d).sort
    ensures
      var dd1 := Put(dd, d, Get(dd, d).(sort := Remove(Get(dd, d).sort, r)));
      && SideOk(dd1.sector, dd1.expires, Get(dd1, d), {r})
      && SideOk(dd1.sector, dd1.expires, Get(dd1, Other(d)), {})
      && (forall x :: x in Get(dd1, d).sort ==> x in dd1.sector && x in Get(dd1, d).fifo)
      && (forall x :: x in Get(dd1, d).fifo ==> x !in Get(dd1, Other(d)).fifo)
      && (dd1.rd.next.None? || dd1.wr.next.None?)
  {
    hide Ascending, ByExpiry, Remove;
    RemoveFacts(Get(dd, d).sort, r);
    AscendingRemove(dd.sector, Get(dd, d).sort, r);
  }

  /** What the front merge comes to once the alias is gone. */
  lemma FrontCleared(dd: DD, d: Dir, r: nat, s: nat)
    requires Agree(dd) && r in Get(dd, d).sort
    requires
      var dd1 := Put(dd, d, Get(dd, d).(sort := Remove(Get(dd, d).sort, r)));
      forall x :: x in Get(dd1, d).sort ==> x in dd1.sector && x in Get(dd1, d).fifo
    ensures
      var dd1 := Put(dd, d, Get(dd, d).(sort := Remove(Get(dd, d).sort, r)));
      var dd2 := ClearSector(dd1, d, s);
      && (forall x :: x in Get(dd2, d).sort ==> x in dd2.sector) && dd2.sector == dd.sector
      && FrontMerged(dd, d, r, s) == Insert(dd2.(sector := dd.sector[r := s]), d, r)
  {
    var dd1 := Put(dd, d, Get(dd, d).(sort := Remove(Get(dd, d).sort, r)));
    RemoveFacts(Get(dd, d).sort, r);
    ClearSectorSorted(dd1, d, s);
    hide SideOk, Insert, ClearSector, Remove;
  }

  lemma MergeSteps(dd: DD, d: Dir, r: nat, n: nat)
    requires Agree(dd) && r in Get(dd, d).fifo && n in Get(dd, d).fifo && r != n
    ensures r in dd.expires && n in dd.expires && n in Get(dd, d).sort
    ensures n in Remove(Get(dd, d).fifo, r) && n in MoveBehind(Get(dd, d).fifo, r, n)
    ensures
      var s := Get(dd, d);
      MergedRequests(dd, d, r, n) ==
        if dd.expires[n] < dd.expires[r] then
          Put(dd, d, RemoveFrom(s.(fifo := MoveBehind(s.fifo, r, n)), n)).(expires := dd.expires[r := dd.expires[n]])
        else Put(dd, d, RemoveFrom(s, n))
  {
    hide Ascending, ByExpiry, RemoveFrom, Remove, InsertAt, Index;
    var s := Get(dd, d);
    RemoveFacts(s.fifo, r);
    InsertFacts(Remove(s.fifo, r), Index(Remove(s.fifo, r), n) + 1, r);
  }
}

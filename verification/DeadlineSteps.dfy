/** Every operation of the deadline scheduler keeps its indexes in agreement: adding a request, which
    may evict an alias; a front merge, which moves one to another sector; merging two requests, which
    may hand a deadline over; and a dispatch call.  `Timely` is the part about expiry: no deadline is
    further away than the tunable of its direction allows, so a new request goes last. */
module DeadlineSteps {
  import opened Lists
  import opened Deadline

  lemma InsertOk(dd: DD, d: Dir, r: nat)
    requires SideOk(dd.sector, dd.expires, Get(dd, d), {r}) && r in Get(dd, d).fifo
    requires forall x :: x in Get(dd, d).sort ==> dd.sector[x] != dd.sector[r]
    ensures SideOk(dd.sector, dd.expires, Get(Insert(dd, d, r), d), {})
  {
    var s := Get(dd, d);
    InsertFacts(s.sort, Slot(dd.sector, s.sort, dd.sector[r]), r);
    AscendingInsert(dd.sector, s.sort, r);
  }

  /** After the alias loop no request is left at sector `s`. */
  lemma ClearOk(dd: DD, d: Dir, out: set<nat>, s: nat)
    requires SideOk(dd.sector, dd.expires, Get(dd, d), out)
    requires SideOk(dd.sector, dd.expires, Get(dd, Other(d)), {})
    requires forall x :: x in Get(dd, d).fifo ==> x !in Get(dd, Other(d)).fifo
    requires dd.rd.next.None? || dd.wr.next.None?
    ensures var dd1 := ClearSector(dd, d, s);
            && SideOk(dd1.sector, dd1.expires, Get(dd1, d), out)
            && SideOk(dd1.sector, dd1.expires, Get(dd1, Other(d)), {})
            && (forall x :: x in Get(dd1, d).fifo ==> x !in Get(dd1, Other(d)).fifo)
            && (dd1.rd.next.None? || dd1.wr.next.None?)
            && (forall x :: x in Get(dd1, d).sort ==> x in Get(dd, d).sort && dd.sector[x] != s)
            && (forall x :: x in Get(dd1, d).fifo ==> x in Get(dd, d).fifo)
            && (forall x :: x in out && x in Get(dd, d).fifo ==> x in Get(dd1, d).fifo)
            && Get(dd1, Other(d)).fifo == Get(dd, Other(d)).fifo
            && dd1.sector == dd.sector && dd1.expires == dd.expires
            && dd1.starved == dd.starved && dd1.batching == dd.batching && dd1.tun == dd.tun
  {
    var alias := Find(dd.sector, Get(dd, d).sort, s);
    if alias.Some? {
      MoveOk(dd, d, out, alias.value);
      RemoveFacts(Get(dd, d).fifo, alias.value);
      AscendingDistinct(dd.sector, Get(dd, d).sort, alias.value);
    }
  }

  lemma AscendingDistinct(sector: map<nat, nat>, l: seq<nat>, r: nat)
    requires r in l && forall x :: x in l ==> x in sector
    requires Ascending(sector, l)
    ensures forall x :: x in l && x != r ==> sector[x] != sector[r]
  {
    var k :| 0 <= k < |l| && l[k] == r;
    forall x | x in l && x != r ensures sector[x] != sector[r] {
      var i :| 0 <= i < |l| && l[i] == x;
    }
  }

  /** Changing what a map says of a request outside a list changes nothing in the list. */
  lemma SideFrame(sector: map<nat, nat>, expires: map<nat, int>, s: Side, out: set<nat>,
                  sector1: map<nat, nat>, expires1: map<nat, int>)
    requires SideOk(sector, expires, s, out)
    requires forall x :: x in s.fifo ==> x in sector1 && x in expires1 && expires1[x] == expires[x]
    requires forall x :: x in s.sort ==> sector1[x] == sector[x]
    ensures SideOk(sector1, expires1, s, out)
  {
  }

  lemma AppendFifoOk(sector: map<nat, nat>, expires: map<nat, int>, s: Side, r: nat)
    requires SideOk(sector, expires, s, {}) && r !in s.fifo && r in sector && r in expires
    requires forall x :: x in s.fifo ==> expires[x] <= expires[r]
    ensures SideOk(sector, expires, s.(fifo := s.fifo + [r]), {r})
  {
    assert s.fifo + [r] == InsertAt(s.fifo, |s.fifo|, r);
    InsertFacts(s.fifo, |s.fifo|, r);
  }

  /** Nothing expires later than a request added now would. */
  ghost predicate Timely(dd: DD, now: int) {
    && (forall x :: x in dd.rd.fifo && x in dd.expires ==> dd.expires[x] <= now + dd.tun.readExpire)
    && (forall x :: x in dd.wr.fifo && x in dd.expires ==> dd.expires[x] <= now + dd.tun.writeExpire)
  }

  lemma JoinOk(dd: DD, d: Dir, r: nat, s: nat, now: int)
    requires SideOk(dd.sector, dd.expires, Get(dd, d), {})
    requires SideOk(dd.sector, dd.expires, Get(dd, Other(d)), {})
    requires Timely(dd, now) && r !in Get(dd, d).fifo && r !in Get(dd, Other(d)).fifo
    ensures var dd1 := JoinFifo(dd, d, r, s, now);
            && SideOk(dd1.sector, dd1.expires, Get(dd1, d), {r})
            && SideOk(dd1.sector, dd1.expires, Get(dd1, Other(d)), {})
            && Timely(dd1, now)
  {
    hide *;
    JoinSelf(dd, d, r, s, now);
    JoinOther(dd, d, r, s, now);
    JoinTimely(dd, d, r, s, now);
  }

  lemma JoinSelf(dd: DD, d: Dir, r: nat, s: nat, now: int)
    requires SideOk(dd.sector, dd.expires, Get(dd, d), {})
    requires Timely(dd, now) && r !in Get(dd, d).fifo
    ensures var dd1 := JoinFifo(dd, d, r, s, now); SideOk(dd1.sector, dd1.expires, Get(dd1, d), {r})
  {
    hide ByExpiry;
    var sector1, expires1 := dd.sector[r := s], dd.expires[r := now + Expire(dd, d)];
    SideFrame(dd.sector, dd.expires, Get(dd, d), {}, sector1, expires1);
    AppendFifoOk(sector1, expires1, Get(dd, d), r);
    hide SideOk;
  }

  lemma JoinOther(dd: DD, d: Dir, r: nat, s: nat, now: int)
    requires SideOk(dd.sector, dd.expires, Get(dd, Other(d)), {}) && r !in Get(dd, Other(d)).fifo
    ensures var dd1 := JoinFifo(dd, d, r, s, now); SideOk(dd1.sector, dd1.expires, Get(dd1, Other(d)), {})
  {
    var sector1, expires1 := dd.sector[r := s], dd.expires[r := now + Expire(dd, d)];
    SideFrame(dd.sector, dd.expires, Get(dd, Other(d)), {}, sector1, expires1);
    hide SideOk;
  }

  lemma JoinTimely(dd: DD, d: Dir, r: nat, s: nat, now: int)
    requires Timely(dd, now) && r !in Get(dd, Other(d)).fifo
    ensures Timely(JoinFifo(dd, d, r, s, now), now)
  {
  }

  lemma InsertFrame(dd: DD, d: Dir, r: nat, now: int)
    requires r in dd.sector && forall x :: x in Get(dd, d).sort ==> x in dd.sector
    ensures var dd1 := Insert(dd, d, r);
            && Get(dd1, d).fifo == Get(dd, d).fifo && Get(dd1, Other(d)) == Get(dd, Other(d))
            && dd1 == Put(dd, d, Get(dd1, d)) && Get(dd1, d).next == Get(dd, d).next
            && (Timely(dd, now) ==> Timely(dd1, now))
  {
  }

  lemma ClearAgree(dd: DD, d: Dir, s: nat, now: int)
    requires Agree(dd) && Timely(dd, now)
    ensures var dd1 := ClearSector(dd, d, s);
            && Agree(dd1) && Timely(dd1, now) && dd1.sector == dd.sector
            && forall x :: x in Get(dd1, d).sort ==> dd1.sector[x] != s
  {
    hide SideOk, ClearSector;
    ClearOk(dd, d, {}, s);
  }

  lemma JoinAgree(dd: DD, d: Dir, r: nat, s: nat, now: int)
    requires Agree(dd) && Timely(dd, now) && r !in dd.sector
    requires forall x :: x in Get(dd, d).sort ==> dd.sector[x] != s
    ensures var dd1 := Insert(JoinFifo(dd, d, r, s, now), d, r); Agree(dd1) && Timely(dd1, now)
  {
    hide Insert;
    assert r !in Get(dd, d).fifo && r !in Get(dd, Other(d)).fifo;
    var dd1 := JoinFifo(dd, d, r, s, now);
    JoinOk(dd, d, r, s, now);
    InsertOk(dd1, d, r);
    InsertFrame(dd1, d, r, now);
    hide SideOk, Timely, Insert;
  }

  lemma AddOk(dd: DD, d: Dir, r: nat, s: nat, now: int)
    requires Agree(dd) && Timely(dd, now) && r !in dd.sector
    ensures Agree(AddRequest(dd, d, r, s, now)) && Timely(AddRequest(dd, d, r, s, now), now)
  {
    ClearAgree(dd, d, s, now);
    JoinAgree(ClearSector(dd, d, s), d, r, s, now);
  }

  lemma FrontMergedOk(dd: DD, d: Dir, r: nat, s: nat, now: int)
    requires Agree(dd) && Timely(dd, now) && r in Get(dd, d).sort
    ensures Agree(FrontMerged(dd, d, r, s)) && Timely(FrontMerged(dd, d, r, s), now)
  {
    hide SideOk, Remove, ClearSector, Get, Put, Insert, Timely;
    var dd1 := Put(dd, d, Get(dd, d).(sort := Remove(Get(dd, d).sort, r)));
    LiftedOk(dd, d, r, now);
    hide Agree;
    ClearOk(dd1, d, {r}, s);
    var dd2 := ClearSector(dd1, d, s);
    Absent(dd.sector, dd.expires, Get(dd2, d), {r}, r);
    Absent(dd.sector, dd.expires, Get(dd2, Other(d)), {}, r);
    Resectored(dd.sector, dd.expires, Get(dd2, d), {r}, r, s);
    Resectored(dd.sector, dd.expires, Get(dd2, Other(d)), {}, r, s);
    var dd3 := dd2.(sector := dd.sector[r := s]);
    SectorOnly(dd2, d, dd.sector[r := s]);
    FewerTimely(dd1, dd2, d, now);
    InsertAgree(dd3, d, r, now);
  }

  lemma SectorOnly(dd: DD, d: Dir, sector: map<nat, nat>)
    ensures var dd1 := dd.(sector := sector); Get(dd1, d) == Get(dd, d) && Get(dd1, Other(d)) == Get(dd, Other(d))
    ensures forall now: int :: Timely(dd, now) ==> Timely(dd.(sector := sector), now)
  {
  }

  lemma FewerTimely(dd: DD, dd1: DD, d: Dir, now: int)
    requires Timely(dd, now) && dd1.expires == dd.expires && dd1.tun == dd.tun
    requires forall x :: x in Get(dd1, d).fifo ==> x in Get(dd, d).fifo
    requires Get(dd1, Other(d)).fifo == Get(dd, Other(d)).fifo
    ensures Timely(dd1, now)
  {
    match d
    case READ => assert Get(dd1, d) == dd1.rd && Get(dd1, Other(d)) == dd1.wr;
    case WRITE => assert Get(dd1, d) == dd1.wr && Get(dd1, Other(d)) == dd1.rd;
  }

  lemma InsertAgree(dd: DD, d: Dir, r: nat, now: int)
    requires SideOk(dd.sector, dd.expires, Get(dd, d), {r}) && SideOk(dd.sector, dd.expires, Get(dd, Other(d)), {})
    requires r in Get(dd, d).fifo && (forall x :: x in Get(dd, d).sort ==> dd.sector[x] != dd.sector[r])
    requires forall x :: x in Get(dd, d).fifo ==> x !in Get(dd, Other(d)).fifo
    requires (dd.rd.next.None? || dd.wr.next.None?) && dd.starved <= dd.tun.writesStarved && Timely(dd, now)
    ensures Agree(Insert(dd, d, r)) && Timely(Insert(dd, d, r), now)
  {
    InsertOk(dd, d, r);
    hide Insert, Timely, Ascending, ByExpiry;
    InsertFrame(dd, d, r, now);
  }

  /** A request that is being moved is still on the FIFO. */
  lemma LiftedOk(dd: DD, d: Dir, r: nat, now: int)
    requires Agree(dd) && Timely(dd, now) && r in Get(dd, d).sort
    ensures
      var dd1 := Put(dd, d, Get(dd, d).(sort := Remove(Get(dd, d).sort, r)));
      && SideOk(dd.sector, dd.expires, Get(dd1, d), {r}) && SideOk(dd.sector, dd.expires, Get(dd1, Other(d)), {})
      && r in Get(dd1, d).fifo && (forall x :: x in Get(dd1, d).fifo ==> x !in Get(dd1, Other(d)).fifo)
      && (dd1.rd.next.None? || dd1.wr.next.None?) && dd1 == dd.(rd := dd1.rd, wr := dd1.wr)
      && Timely(dd1, now) && dd.starved <= dd.tun.writesStarved
      && r in dd.sector && forall x :: x in Get(dd1, d).sort ==> x in dd.sector && x in Get(dd1, d).fifo
  {
    hide Remove, ByExpiry, Ascending;
    RemoveFacts(Get(dd, d).sort, r);
    AscendingRemove(dd.sector, Get(dd, d).sort, r);
  }

  lemma Absent(sector: map<nat, nat>, expires: map<nat, int>, s: Side, out: set<nat>, r: nat)
    requires SideOk(sector, expires, s, out) && (r in out || r !in s.fifo)
    ensures r !in s.sort
  {
  }

  lemma Resectored(sector: map<nat, nat>, expires: map<nat, int>, s: Side, out: set<nat>, r: nat, to: nat)
    requires SideOk(sector, expires, s, out) && r !in s.sort
    ensures SideOk(sector[r := to], expires, s, out)
    ensures forall x :: x in s.sort ==> x in sector && sector[r := to][x] == sector[x]
  {
    hide Ascending, ByExpiry;
    SideFrame(sector, expires, s, out, sector[r := to], expires);
  }

  /** `r` inherits the place and the expiry of `n`, which is then dropped. */
  lemma MoveBehindOk(expires: map<nat, int>, l: seq<nat>, r: nat, n: nat)
    requires NoDup(l) && r in l && n in l && r != n
    requires forall x :: x in l ==> x in expires
    requires ByExpiry(expires, l) && expires[n] < expires[r]
    ensures n in Remove(l, r)
    ensures var m := MoveBehind(l, r, n);
            && NoDup(m) && (forall x :: x in m <==> x in l)
            && ByExpiry(expires[r := expires[n]], m)
  {
    RemoveFacts(l, r);
    ByExpiryRemove(expires, l, r);
    var m, k := Remove(l, r), Index(Remove(l, r), n) + 1;
    InsertFacts(m, k, r);
    InsertByExpiry(expires[r := expires[n]], m, k, r);
  }

  lemma InsertByExpiry(expires: map<nat, int>, l: seq<nat>, k: nat, r: nat)
    requires 0 < k <= |l| && r in expires && forall x :: x in l ==> x in expires
    requires ByExpiry(expires, l) && expires[l[k - 1]] == expires[r]
    ensures forall x :: x in InsertAt(l, k, r) ==> x in expires
    ensures ByExpiry(expires, InsertAt(l, k, r))
  {
    hide ByExpiry, InsertAt;
    InsertFacts(l, k, r);
    var m := InsertAt(l, k, r);
    forall i, j | 0 <= i < j < |m| ensures expires[m[i]] <= expires[m[j]] {
      // the new entry expires like the one before it
      Inserted(l, k, r, i);
      Inserted(l, k, r, j);
      NotLater(expires, l, if i < k then i else i - 1, if j < k then j else j - 1);
    }
    IsByExpiry(expires, m);
  }

  lemma Inserted(l: seq<nat>, k: nat, r: nat, i: nat)
    requires k <= |l| && i <= |l|
    ensures |InsertAt(l, k, r)| == |l| + 1
    ensures InsertAt(l, k, r)[i] == if i < k then l[i] else if i == k then r else l[i - 1]
  {
  }

  lemma NotLater(expires: map<nat, int>, l: seq<nat>, a: nat, b: nat)
    requires (forall x :: x in l ==> x in expires) && ByExpiry(expires, l) && a <= b < |l|
    ensures expires[l[a]] <= expires[l[b]]
  {
  }

  lemma IsByExpiry(expires: map<nat, int>, m: seq<nat>)
    requires forall x :: x in m ==> x in expires
    requires forall i, j :: 0 <= i < j < |m| ==> expires[m[i]] <= expires[m[j]]
    ensures ByExpiry(expires, m)
  {
  }

  lemma StaysBehind(l: seq<nat>, r: nat, n: nat)
    requires NoDup(l) && r in l && n in Remove(l, r)
    ensures forall x :: x in MoveBehind(l, r, n) <==> x in l
  {
    hide Remove, InsertAt;
    RemoveFacts(l, r);
    InsertFacts(Remove(l, r), Index(Remove(l, r), n) + 1, r);
  }

  lemma MergedOk(dd: DD, d: Dir, r: nat, n: nat, now: int)
    requires Agree(dd) && Timely(dd, now) && r in Get(dd, d).fifo && n in Get(dd, d).fifo && r != n
    ensures Agree(MergedRequests(dd, d, r, n)) && Timely(MergedRequests(dd, d, r, n), now)
  {
    hide Agree, Timely, MoveBehind, Remove;
    var s := Get(dd, d);
    Members(dd, d);
    if dd.expires[n] < dd.expires[r] {
      EarlierOk(dd, d, r, n, now);
      StaysBehind(s.fifo, r, n);
      AbsorbOk(Put(dd, d, s.(fifo := MoveBehind(s.fifo, r, n)))
               .(expires := dd.expires[r := dd.expires[n]]), d, n, now);
    } else {
      AbsorbOk(dd, d, n, now);
    }
  }

  lemma EarlierSide(sector: map<nat, nat>, expires: map<nat, int>, s: Side, r: nat, n: nat)
    requires SideOk(sector, expires, s, {}) && r in s.fifo && n in s.fifo && r != n
    requires expires[n] < expires[r]
    ensures n in Remove(s.fifo, r)
    ensures forall x :: x in MoveBehind(s.fifo, r, n) <==> x in s.fifo
    ensures SideOk(sector, expires[r := expires[n]], s.(fifo := MoveBehind(s.fifo, r, n)), {})
  {
    MoveBehindOk(expires, s.fifo, r, n);
  }

  lemma EarlierAgree(dd: DD, d: Dir, r: nat, n: nat)
    requires Agree(dd) && r in Get(dd, d).fifo && n in Get(dd, d).fifo && r != n
    requires dd.expires[n] < dd.expires[r]
    ensures n in Remove(Get(dd, d).fifo, r)
    ensures Agree(Put(dd, d, Get(dd, d).(fifo := MoveBehind(Get(dd, d).fifo, r, n)))
                  .(expires := dd.expires[r := dd.expires[n]]))
  {
    hide ByExpiry, Ascending;
    var s := Get(dd, d);
    EarlierSide(dd.sector, dd.expires, s, r, n);
    SideFrame(dd.sector, dd.expires, Get(dd, Other(d)), {}, dd.sector, dd.expires[r := dd.expires[n]]);
    assert r !in Get(dd, Other(d)).fifo;
    hide SideOk, MoveBehind;
  }

  lemma EarlierTimely(dd: DD, d: Dir, fifo1: seq<nat>, r: nat, n: nat, now: int)
    requires Timely(dd, now) && n in Get(dd, d).fifo && n in dd.expires
    requires forall x :: x in fifo1 <==> x in Get(dd, d).fifo
    requires r in Get(dd, d).fifo && r !in Get(dd, Other(d)).fifo
    ensures Timely(Put(dd, d, Get(dd, d).(fifo := fifo1)).(expires := dd.expires[r := dd.expires[n]]), now)
  {
  }

  lemma EarlierOk(dd: DD, d: Dir, r: nat, n: nat, now: int)
    requires Agree(dd) && Timely(dd, now) && r in Get(dd, d).fifo && n in Get(dd, d).fifo && r != n
    requires dd.expires[n] < dd.expires[r]
    ensures n in Remove(Get(dd, d).fifo, r)
    ensures var s := Get(dd, d);
            var dd1 := Put(dd, d, s.(fifo := MoveBehind(s.fifo, r, n)))
                       .(expires := dd.expires[r := dd.expires[n]]);
            Agree(dd1) && Timely(dd1, now)
  {
    EarlierAgree(dd, d, r, n);
    EarlierSide(dd.sector, dd.expires, Get(dd, d), r, n);
    EarlierTimely(dd, d, MoveBehind(Get(dd, d).fifo, r, n), r, n, now);
    hide SideOk, MoveBehind, Timely;
  }

  lemma AbsorbOk(dd: DD, d: Dir, n: nat, now: int)
    requires Agree(dd) && Timely(dd, now) && n in Get(dd, d).fifo
    ensures var dd1 := Put(dd, d, RemoveFrom(Get(dd, d), n)); Agree(dd1) && Timely(dd1, now)
  {
    hide Remove, ByExpiry, Ascending;
    RemoveOk(dd.sector, dd.expires, Get(dd, d), {}, n);
    RemoveFacts(Get(dd, d).fifo, n);
  }

  lemma Members(dd: DD, d: Dir)
    requires Agree(dd)
    ensures NoDup(Get(dd, d).fifo)
    ensures forall x :: x in Get(dd, d).fifo ==> x in Get(dd, d).sort && x in dd.sector && x in dd.expires
  {
  }

  lemma MoveAgree(dd: DD, d: Dir, r: nat, now: int)
    requires Agree(dd) && Timely(dd, now) && r in Get(dd, d).sort
    ensures Agree(MoveRequest(dd, d, r)) && Timely(MoveRequest(dd, d, r), now)
  {
    hide Remove, Ascending, ByExpiry;
    MoveOk(dd, d, {}, r);
    RemoveFacts(Get(dd, d).fifo, r);
  }

  lemma AgreeFrame(dd: DD, batching: nat, starved: nat, now: int)
    requires Agree(dd) && Timely(dd, now) && starved <= dd.tun.writesStarved
    ensures var dd1 := dd.(batching := batching, starved := starved); Agree(dd1) && Timely(dd1, now)
  {
    hide SideOk;
  }

  lemma DispatchOk(dd: DD, now: int)
    requires Agree(dd) && Timely(dd, now)
    ensures Agree(Dispatch(dd, now)) && Timely(Dispatch(dd, now), now)
  {
    match MakePlan(dd)
    case Idle =>
    case Continue(d, r) =>
      MoveAgree(dd, d, r, now);
      hide Agree, Timely, MoveRequest;
      AgreeFrame(MoveRequest(dd, d, r), dd.batching + 1, dd.starved, now);
    case NewBatch(d) =>
      NewBatchOk(dd, now, d);
  }

  lemma NewBatchOk(dd: DD, now: int, d: Dir)
    requires Agree(dd) && Timely(dd, now) && MakePlan(dd) == NewBatch(d)
    ensures Agree(Dispatch(dd, now)) && Timely(Dispatch(dd, now), now)
  {
    var r := Pick(dd, d, now);
    MoveAgree(dd, d, r, now);
    assert Dispatch(dd, now).starved <= dd.tun.writesStarved;
    hide Agree, Timely, MoveRequest, Pick, MakePlan;
    AgreeFrame(MoveRequest(dd, d, r), 1, Dispatch(dd, now).starved, now);
  }
}

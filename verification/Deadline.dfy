/** The deadline I/O scheduler, block/deadline-iosched.c.  A request is named by a number; its
    sector and its expiry are looked up in maps, because merging changes them while the request
    sits in the lists.  The red-black tree is the sequence of its requests in key order. */
module Deadline {
  import opened Options
  import opened Lists

  datatype Dir = READ | WRITE

  /** sort_list, fifo_list and next_rq of one direction. */
  datatype Side = Side(sort: seq<nat>, fifo: seq<nat>, next: Option<nat>)

  datatype Tunables = Tunables(readExpire: nat, writeExpire: nat, fifoBatch: nat, writesStarved: nat)

  /** deadline_data, with the requests moved to the dispatch queue so far. */
  datatype DD = DD(
    tun: Tunables,
    rd: Side,
    wr: Side,
    sector: map<nat, nat>,
    expires: map<nat, int>,
    batching: nat,
    starved: nat,
    dispatched: seq<nat>)

  function Init(tun: Tunables): DD {
    DD(tun, Side([], [], None), Side([], [], None), map[], map[], 0, 0, [])
  }

  function Get(dd: DD, d: Dir): Side { if d.READ? then dd.rd else dd.wr }

  function Put(dd: DD, d: Dir, s: Side): DD {
    if d.READ? then dd.(rd := s) else dd.(wr := s)
  }

  function Other(d: Dir): Dir { if d.READ? then WRITE else READ }

  // ----- the sorted list -----

  /** elv_rb_find */
  function Find(sector: map<nat, nat>, sort: seq<nat>, s: nat): (r: Option<nat>)
    requires forall x :: x in sort ==> x in sector
    ensures r.Some? ==> r.value in sort && sector[r.value] == s
    ensures r.None? ==> forall x :: x in sort ==> sector[x] != s
  {
    if sort == [] then None
    else if sector[sort[0]] == s then Some(sort[0])
    else Find(sector, sort[1..], s)
  }

  /** Where elv_rb_add links a request whose sector is not in the list. */
  function Slot(sector: map<nat, nat>, sort: seq<nat>, s: nat): (k: nat)
    requires forall x :: x in sort ==> x in sector
    ensures k <= |sort|
    ensures forall i :: 0 <= i < k ==> sector[sort[i]] < s
    ensures k < |sort| ==> s <= sector[sort[k]]
  {
    if sort == [] || s <= sector[sort[0]] then 0 else 1 + Slot(sector, sort[1..], s)
  }

  /** deadline_latter_request */
  function Latter(sort: seq<nat>, r: nat): (n: Option<nat>)
    requires r in sort
  {
    var k := Index(sort, r);
    if k + 1 < |sort| then Some(sort[k + 1]) else None
  }

  // ----- removing and moving -----

  /** deadline_remove_request */
  function RemoveFrom(s: Side, r: nat): Side
    requires r in s.sort && r in s.fifo
  {
    Side(Remove(s.sort, r), Remove(s.fifo, r), if s.next == Some(r) then Latter(s.sort, r) else s.next)
  }

  /** deadline_move_request */
  function MoveRequest(dd: DD, d: Dir, r: nat): (dd1: DD)
    requires r in Get(dd, d).sort && r in Get(dd, d).fifo
    ensures dd1 == dd.(rd := dd1.rd, wr := dd1.wr, dispatched := dd.dispatched + [r])
  {
    var s := Get(dd, d).(next := Latter(Get(dd, d).sort, r));
    var o := Get(dd, Other(d)).(next := None);
    Put(Put(dd, Other(d), o), d, RemoveFrom(s, r)).(dispatched := dd.dispatched + [r])
  }

  // ----- what the scheduler keeps -----

  predicate Ascending(sector: map<nat, nat>, l: seq<nat>)
    requires forall x :: x in l ==> x in sector
  {
    forall i, j :: 0 <= i < j < |l| ==> sector[l[i]] < sector[l[j]]
  }

  predicate ByExpiry(expires: map<nat, int>, l: seq<nat>)
    requires forall x :: x in l ==> x in expires
  {
    forall i, j :: 0 <= i < j < |l| ==> expires[l[i]] <= expires[l[j]]
  }

  /** One direction: the sorted list and the FIFO hold the same requests, the one with distinct
      ascending sectors, the other in order of expiry; next_rq is one of them.  `out` names a
      request that is out of the sorted list while it is being moved. */
  ghost predicate SideOk(sector: map<nat, nat>, expires: map<nat, int>, s: Side, out: set<nat>) {
    && (forall x :: x in s.sort <==> x in s.fifo && x !in out)
    && (forall x :: x in s.fifo ==> x in sector && x in expires)
    && NoDup(s.sort) && NoDup(s.fifo)
    && Ascending(sector, s.sort)
    && ByExpiry(expires, s.fifo)
    && (s.next.Some? ==> s.next.value in s.fifo)
  }

  ghost predicate Agree(dd: DD) {
    && SideOk(dd.sector, dd.expires, dd.rd, {})
    && SideOk(dd.sector, dd.expires, dd.wr, {})
    && (forall x :: x in dd.rd.fifo ==> x !in dd.wr.fifo)
    && (dd.rd.next.None? || dd.wr.next.None?)
    && dd.starved <= dd.tun.writesStarved
  }

  // ----- adding and merging -----

  function Insert(dd: DD, d: Dir, r: nat): (dd1: DD)
    requires r in dd.sector && forall x :: x in Get(dd, d).sort ==> x in dd.sector
    ensures dd1 == dd.(rd := dd1.rd, wr := dd1.wr)
  {
    var s := Get(dd, d);
    Put(dd, d, s.(sort := InsertAt(s.sort, Slot(dd.sector, s.sort, dd.sector[r]), r)))
  }

  /** The alias loop of deadline_add_rq_rb: a request at the sector to be used is dispatched. */
  function ClearSector(dd: DD, d: Dir, s: nat): (dd1: DD)
    requires forall x :: x in Get(dd, d).sort ==> x in dd.sector && x in Get(dd, d).fifo
    ensures dd1 == dd.(rd := dd1.rd, wr := dd1.wr, dispatched := dd1.dispatched)
  {
    var alias := Find(dd.sector, Get(dd, d).sort, s);
    if alias.None? then dd else MoveRequest(dd, d, alias.value)
  }

  function Expire(dd: DD, d: Dir): nat {
    if d.READ? then dd.tun.readExpire else dd.tun.writeExpire
  }

  /** The attributes of a new request, and its place at the end of the FIFO. */
  function JoinFifo(dd: DD, d: Dir, r: nat, s: nat, now: int): DD {
    Put(dd, d, Get(dd, d).(fifo := Get(dd, d).fifo + [r]))
    .(sector := dd.sector[r := s], expires := dd.expires[r := now + Expire(dd, d)])
  }

  /** deadline_add_request at time `now`; joining the FIFO and the sorted list commute. */
  function AddRequest(dd: DD, d: Dir, r: nat, s: nat, now: int): DD
    requires Agree(dd)
  {
    ClearSectorSorted(dd, d, s);
    Insert(JoinFifo(ClearSector(dd, d, s), d, r, s, now), d, r)
  }

  /** deadline_merged_request after a front merge gave `r` the sector `s`: its node is taken out
      with elv_rb_del, which leaves next_rq alone, and added again. */
  function FrontMerged(dd: DD, d: Dir, r: nat, s: nat): DD
    requires Agree(dd) && r in Get(dd, d).sort
  {
    var dd1 := Put(dd, d, Get(dd, d).(sort := Remove(Get(dd, d).sort, r)));
    RemoveFacts(Get(dd, d).sort, r);
    ClearSectorSorted(dd1, d, s);
    Insert(ClearSector(dd1, d, s).(sector := dd.sector[r := s]), d, r)
  }

  /** The list with `r` taken out and put right behind `n`: list_move. */
  function MoveBehind(l: seq<nat>, r: nat, n: nat): seq<nat>
    requires r in l && n in Remove(l, r)
  {
    InsertAt(Remove(l, r), Index(Remove(l, r), n) + 1, r)
  }

  /** deadline_merged_requests: `n` is absorbed by `r`, which inherits an earlier expiry. */
  function MergedRequests(dd: DD, d: Dir, r: nat, n: nat): DD
    requires Agree(dd) && r in Get(dd, d).fifo && n in Get(dd, d).fifo && r != n
  {
    var s := Get(dd, d);
    RemoveFacts(s.fifo, r);
    if dd.expires[n] < dd.expires[r] then
      InsertFacts(Remove(s.fifo, r), Index(Remove(s.fifo, r), n) + 1, r);
      Put(dd, d, RemoveFrom(s.(fifo := MoveBehind(s.fifo, r, n)), n))
      .(expires := dd.expires[r := dd.expires[n]])
    else
      Put(dd, d, RemoveFrom(s, n))
  }

  // ----- dispatching -----

  /** deadline_check_fifo */
  predicate CheckFifo(dd: DD, d: Dir, now: int)
    requires Get(dd, d).fifo != [] && Get(dd, d).fifo[0] in dd.expires
  {
    now > dd.expires[Get(dd, d).fifo[0]]
  }

  /** What deadline_dispatch_requests decides: nothing to do, go on with the batch, or start a new
      batch in a direction. */
  datatype Plan = Idle | Continue(d: Dir, r: nat) | NewBatch(d: Dir)

  function MakePlan(dd: DD): Plan {
    var anyRead := dd.rd.fifo != [];
    var anyWrite := dd.wr.fifo != [];
    if dd.wr.next.Some? && dd.batching < dd.tun.fifoBatch then Continue(WRITE, dd.wr.next.value)
    else if dd.wr.next.None? && dd.rd.next.Some? && dd.batching < dd.tun.fifoBatch then
      Continue(READ, dd.rd.next.value)
    else if anyRead then
      if anyWrite && dd.starved >= dd.tun.writesStarved then NewBatch(WRITE) else NewBatch(READ)
    else if anyWrite then NewBatch(WRITE)
    else Idle
  }

  /** The request a new batch starts with. */
  function Pick(dd: DD, d: Dir, now: int): nat
    requires Get(dd, d).fifo != [] && Get(dd, d).fifo[0] in dd.expires
  {
    var s := Get(dd, d);
    if CheckFifo(dd, d, now) || s.next.None? then s.fifo[0] else s.next.value
  }

  /** deadline_dispatch_requests at time `now`; the `force` argument is not used. */
  function Dispatch(dd: DD, now: int): DD
    requires Agree(dd)
  {
    match MakePlan(dd)
    case Idle => dd
    case Continue(d, r) => MoveRequest(dd, d, r).(batching := dd.batching + 1)
    case NewBatch(d) =>
      var starved := if d.WRITE? then 0 else if dd.wr.fifo != [] then dd.starved + 1 else dd.starved;
      MoveRequest(dd, d, Pick(dd, d, now)).(batching := 1, starved := starved)
  }

  // ----- lists keep their order -----

  lemma AscendingRemove(sector: map<nat, nat>, l: seq<nat>, r: nat)
    requires r in l && forall x :: x in l ==> x in sector
    requires Ascending(sector, l)
    ensures forall x :: x in Remove(l, r) ==> x in sector
    ensures Ascending(sector, Remove(l, r))
  {
    RemoveAt(l, r);
  }

  lemma ByExpiryRemove(expires: map<nat, int>, l: seq<nat>, r: nat)
    requires r in l && forall x :: x in l ==> x in expires
    requires ByExpiry(expires, l)
    ensures forall x :: x in Remove(l, r) ==> x in expires
    ensures ByExpiry(expires, Remove(l, r))
  {
    RemoveAt(l, r);
  }

  lemma AscendingInsert(sector: map<nat, nat>, l: seq<nat>, r: nat)
    requires r in sector && forall x :: x in l ==> x in sector && sector[x] != sector[r]
    requires Ascending(sector, l)
    ensures var m := InsertAt(l, Slot(sector, l, sector[r]), r);
            (forall x :: x in m ==> x in sector) && Ascending(sector, m)
  {
    hide Slot, Ascending, InsertAt;
    var k := Slot(sector, l, sector[r]);
    InsertFacts(l, k, r);
    SlotGap(sector, l, sector[r]);
    InsertBetween(sector, l, k, r);
  }

  lemma SlotGap(sector: map<nat, nat>, l: seq<nat>, s: nat)
    requires forall x :: x in l ==> x in sector && sector[x] != s
    requires Ascending(sector, l)
    ensures forall i :: Slot(sector, l, s) <= i < |l| ==> l[i] in sector && s < sector[l[i]]
  {
    var k := Slot(sector, l, s);
    forall i | k <= i < |l| ensures l[i] in sector && s < sector[l[i]] {
      assert l[k] in l && l[i] in l;
      assert k < i ==> sector[l[k]] < sector[l[i]];
    }
  }

  lemma InsertBetween(sector: map<nat, nat>, l: seq<nat>, k: nat, r: nat)
    requires k <= |l| && r in sector && (forall x :: x in l ==> x in sector) && Ascending(sector, l)
    requires forall i :: 0 <= i < k ==> sector[l[i]] < sector[r]
    requires forall i :: k <= i < |l| ==> sector[r] < sector[l[i]]
    ensures forall x :: x in InsertAt(l, k, r) ==> x in sector
    ensures Ascending(sector, InsertAt(l, k, r))
  {
    var m := InsertAt(l, k, r);
    InsertFacts(l, k, r);
    hide InsertAt;
    forall i, j | 0 <= i < j < |m| ensures sector[m[i]] < sector[m[j]] {
      if i != k && j != k {
        assert m[i] == l[if i < k then i else i - 1] && m[j] == l[if j < k then j else j - 1];
      }
    }
  }

  // ----- removal and the alias loop keep the directions -----

  lemma RemoveOk(sector: map<nat, nat>, expires: map<nat, int>, s: Side, out: set<nat>, r: nat)
    requires SideOk(sector, expires, s, out) && r in s.sort
    ensures SideOk(sector, expires, RemoveFrom(s, r), out)
  {
    RemoveFacts(s.sort, r);
    RemoveFacts(s.fifo, r);
    AscendingRemove(sector, s.sort, r);
    ByExpiryRemove(expires, s.fifo, r);
  }

  /** The request after `r` in the sorted list is another one. */
  lemma LatterOther(l: seq<nat>, r: nat)
    requires NoDup(l) && r in l
    ensures Latter(l, r).Some? ==> Latter(l, r).value in l && Latter(l, r).value != r
  {
  }

  lemma MoveOk(dd: DD, d: Dir, out: set<nat>, r: nat)
    requires SideOk(dd.sector, dd.expires, Get(dd, d), out) && r in Get(dd, d).sort
    requires SideOk(dd.sector, dd.expires, Get(dd, Other(d)), {})
    requires forall x :: x in Get(dd, d).fifo ==> x !in Get(dd, Other(d)).fifo
    ensures var dd1 := MoveRequest(dd, d, r);
            && SideOk(dd1.sector, dd1.expires, Get(dd1, d), out)
            && SideOk(dd1.sector, dd1.expires, Get(dd1, Other(d)), {})
            && (forall x :: x in Get(dd1, d).fifo ==> x !in Get(dd1, Other(d)).fifo)
            && (dd1.rd.next.None? || dd1.wr.next.None?)
            && (forall x :: x in Get(dd1, d).sort <==> x in Get(dd, d).sort && x != r)
            && Get(dd1, d).fifo == Remove(Get(dd, d).fifo, r)
            && Get(dd1, Other(d)).fifo == Get(dd, Other(d)).fifo
  {
    hide Remove, Index;
    var s := Get(dd, d).(next := Latter(Get(dd, d).sort, r));
    LatterOther(Get(dd, d).sort, r);
    assert SideOk(dd.sector, dd.expires, s, out);
    RemoveOk(dd.sector, dd.expires, s, out, r);
    RemoveFacts(s.sort, r);
    RemoveFacts(s.fifo, r);
  }

  lemma ClearSectorSorted(dd: DD, d: Dir, s: nat)
    requires forall x :: x in Get(dd, d).sort ==> x in dd.sector && x in Get(dd, d).fifo
    requires NoDup(Get(dd, d).sort)
    ensures forall x :: x in Get(ClearSector(dd, d, s), d).sort ==> x in Get(dd, d).sort
    ensures ClearSector(dd, d, s).sector == dd.sector
  {
    var alias := Find(dd.sector, Get(dd, d).sort, s);
    if alias.Some? { RemoveFacts(Get(dd, d).sort, alias.value); }
  }
}

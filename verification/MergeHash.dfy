/** The merge hash of block/elevator.c: requests in the scheduler, by the sector after their last.  A lookup
    for a back merge walks one chain and drops the requests from it that can no longer be merged; a front
    merge leaves the chains alone, a back merge rehashes.  What has to hold is that a lookup finds
    what a search of the whole scheduler would find. */
module MergeHash {
  import opened Options
  import opened Lists

  type Id = nat

  type Link = Option<Id>

  /** What merging needs to know of a request in the scheduler. */
  datatype Req = Req(sector: nat, length: nat, mergeable: bool)

  /** `chains` are the hash lists, `reqs` the requests in the scheduler, `nrSorted` their count,
      `last` the one-hit cache. */
  datatype State = State(chains: seq<seq<Id>>, reqs: map<Id, Req>, nrSorted: nat, last: Link)

  const ENTRIES := 64
  const GOLDEN_RATIO_PRIME := 0x9e37_ffff_fffc_0001
  const WORD := 0x1_0000_0000_0000_0000

  /** rq_hash_key */
  function Key(r: Req): nat { r.sector + r.length }

  /** ELV_HASH_FN, on 64-bit machines */
  function Fn(key: nat): (h: nat)
    ensures h < ENTRIES
  {
    (key / 8 * GOLDEN_RATIO_PRIME) % WORD / (WORD / ENTRIES)
  }

  // ----- chains -----

  function Unchained(chains: seq<seq<Id>>, h: nat, x: Id): seq<seq<Id>>
    requires h < |chains|
  {
    if x in chains[h] then chains[h := Remove(chains[h], x)] else chains
  }

  /** hlist_add_head */
  function Chained(chains: seq<seq<Id>>, h: nat, x: Id): seq<seq<Id>>
    requires h < |chains|
  {
    chains[h := [x] + chains[h]]
  }

  /** elv_rqhash_find along one chain: entries that can no longer be merged are dropped on the way. */
  function Search(chain: seq<Id>, reqs: map<Id, Req>, offset: nat): (r: (seq<Id>, Link))
    requires forall x :: x in chain ==> x in reqs
  {
    if chain == [] then ([], None)
    else if !reqs[chain[0]].mergeable then Search(chain[1..], reqs, offset)
    else if Key(reqs[chain[0]]) == offset then (chain, Some(chain[0]))
    else
      var (rest, found) := Search(chain[1..], reqs, offset);
      ([chain[0]] + rest, found)
  }

  // ----- the hash is right -----

  /** Chains hold requests of the scheduler under their keys, none twice. */
  predicate Sound(s: State) {
    && |s.chains| == ENTRIES
    && (forall h :: 0 <= h < ENTRIES ==> NoDup(s.chains[h]))
    && forall h, x :: 0 <= h < ENTRIES && x in s.chains[h] ==> x in s.reqs && Fn(Key(s.reqs[x])) == h
  }

  /** No request that may be merged is missing. */
  predicate Complete(s: State) {
    && |s.chains| == ENTRIES
    && forall x :: x in s.reqs && s.reqs[x].mergeable ==> x in s.chains[Fn(Key(s.reqs[x]))]
  }

  predicate Right(s: State) {
    && Sound(s) && Complete(s) && s.nrSorted == |s.reqs|
    && (s.last != None ==> s.last.value in s.reqs && s.reqs[s.last.value].mergeable)
  }

  // ----- lookup -----

  function Found(s: State, offset: nat): (State, Link)
    requires Sound(s)
  {
    var (chain, link) := Search(s.chains[Fn(offset)], s.reqs, offset);
    (s.(chains := s.chains[Fn(offset) := chain]), link)
  }

  lemma {:induction false} SearchFacts(chain: seq<Id>, reqs: map<Id, Req>, offset: nat)
    requires NoDup(chain) && forall x :: x in chain ==> x in reqs
    ensures
      var (rest, found) := Search(chain, reqs, offset);
      && NoDup(rest)
      && (forall x :: x in rest ==> x in chain)
      && (forall x :: x in chain && reqs[x].mergeable ==> x in rest)
      && (found == None <==> forall x :: x in chain && reqs[x].mergeable ==> Key(reqs[x]) != offset)
      && (found != None ==> found.value in chain && reqs[found.value].mergeable && Key(reqs[found.value]) == offset)
  {
    if chain != [] {
      assert chain == [chain[0]] + chain[1..];
      SearchFacts(chain[1..], reqs, offset);
    }
  }

  /** A lookup finds a request exactly when some request in the scheduler may be merged and ends at
      that sector, and it changes nothing that matters. */
  lemma LookupExact(s: State, offset: nat)
    requires Right(s)
    ensures
      var (t, found) := Found(s, offset);
      && Right(t) && t.reqs == s.reqs
      && (found != None <==> exists x :: x in s.reqs && s.reqs[x].mergeable && Key(s.reqs[x]) == offset)
      && (found != None ==>
            found.value in s.reqs && s.reqs[found.value].mergeable && Key(s.reqs[found.value]) == offset)
  {
    hide Fn, Search;
    SearchFacts(s.chains[Fn(offset)], s.reqs, offset);
  }

  // ----- updates -----

  /** Take `x` out of the chain it would be on. */
  function Unhashed(s: State, x: Id): State
    requires |s.chains| == ENTRIES && x in s.reqs
  {
    s.(chains := Unchained(s.chains, Fn(Key(s.reqs[x])), x))
  }

  /** elv_insert, sorted insertion */
  function Added(s: State, x: Id, r: Req): State
    requires |s.chains| == ENTRIES
  {
    State(if r.mergeable then Chained(s.chains, Fn(Key(r)), x) else s.chains,
          s.reqs[x := r], s.nrSorted + 1,
          if r.mergeable && s.last == None then Some(x) else s.last)
  }

  /** elv_rqhash_reposition, after the request has become `r`. */
  function Repositioned(s: State, x: Id, r: Req): State
    requires |s.chains| == ENTRIES && x in s.reqs
  {
    s.(chains := Chained(Unhashed(s, x).chains, Fn(Key(r)), x), reqs := s.reqs[x := r])
  }

  /** A back merge of `n` sectors, with elv_merged_request. */
  function BackMerged(s: State, x: Id, n: nat): State
    requires |s.chains| == ENTRIES && x in s.reqs
  {
    Repositioned(s, x, s.reqs[x].(length := s.reqs[x].length + n)).(last := Some(x))
  }

  /** A front merge of `n` sectors, with elv_merged_request: the hash is left alone. */
  function FrontMerged(s: State, x: Id, n: nat): State
    requires x in s.reqs && n <= s.reqs[x].sector
  {
    var r := s.reqs[x];
    s.(reqs := s.reqs[x := r.(sector := r.sector - n, length := r.length + n)], last := Some(x))
  }

  /** `x` leaves the scheduler: elv_dispatch_sort and elv_dispatch_add_tail. */
  function Left(s: State, x: Id): State
    requires |s.chains| == ENTRIES && x in s.reqs && s.nrSorted > 0
  {
    State(Unhashed(s, x).chains, s.reqs - {x}, s.nrSorted - 1, if s.last == Some(x) then None else s.last)
  }

  /** attempt_merge with elv_merge_requests: `y` becomes the end of `x`. */
  function Joined(s: State, x: Id, y: Id): State
    requires |s.chains| == ENTRIES && x in s.reqs && y in s.reqs && x != y && s.nrSorted > 0
  {
    var r := s.reqs[x].(length := s.reqs[x].length + s.reqs[y].length);
    Left(Repositioned(s, x, r), y).(last := Some(x))
  }

  /** A merge was refused for good: REQ_NOMERGE. */
  function Refused(s: State, x: Id): State
    requires x in s.reqs
  {
    s.(reqs := s.reqs[x := s.reqs[x].(mergeable := false)], last := if s.last == Some(x) then None else s.last)
  }

  // ----- what every update keeps -----

  /** Nothing but `x` may be wrong: it is on no chain. */
  predicate RightBut(s: State, x: Id) {
    && Sound(s)
    && (forall h :: 0 <= h < ENTRIES ==> x !in s.chains[h])
    && forall y :: y in s.reqs && y != x && s.reqs[y].mergeable ==> y in s.chains[Fn(Key(s.reqs[y]))]
  }

  lemma UnhashedFacts(s: State, x: Id)
    requires Sound(s) && Complete(s) && x in s.reqs
    ensures RightBut(Unhashed(s, x), x)
  {
    hide Fn;
    var h := Fn(Key(s.reqs[x]));
    if x in s.chains[h] {
      RemoveFacts(s.chains[h], x);
    }
  }

  lemma ChainedFacts(s: State, x: Id, r: Req)
    requires RightBut(s, x)
    ensures
      var t := s.(chains := Chained(s.chains, Fn(Key(r)), x), reqs := s.reqs[x := r]);
      Sound(t) && Complete(t)
  {
    hide Fn;
  }

  lemma AddKeeps(s: State, x: Id, r: Req)
    requires Right(s) && x !in s.reqs
    ensures Right(Added(s, x, r)) && Added(s, x, r).reqs == s.reqs[x := r]
  {
    AbsentRight(s, x);
    OneMore(s.reqs, x, r);
    if r.mergeable {
      ChainedFacts(s, x, r);
      hide Fn, Sound, Complete, Chained, RightBut;
    } else {
      hide Fn;
    }
  }

  lemma AbsentRight(s: State, x: Id)
    requires Right(s) && x !in s.reqs
    ensures RightBut(s, x) && |s.chains| == ENTRIES
  {
    hide Fn;
  }

  lemma OneMore(m: map<Id, Req>, x: Id, r: Req)
    requires x !in m
    ensures |m[x := r]| == |m| + 1
  {
    assert m[x := r].Keys == m.Keys + {x};
    assert |m.Keys + {x}| == |m.Keys| + 1;
  }

  lemma RepositionKeeps(s: State, x: Id, r: Req)
    requires Right(s) && x in s.reqs && r.mergeable
    ensures Right(Repositioned(s, x, r)) && Repositioned(s, x, r).reqs == s.reqs[x := r]
    ensures |s.chains| == |Repositioned(s, x, r).chains| == ENTRIES
  {
    UnhashedFacts(s, x);
    ChainedFacts(Unhashed(s, x), x, r);
    hide Fn, Sound, Complete;
    assert s.reqs[x := r].Keys == s.reqs.Keys;
    assert |s.reqs[x := r].Keys| == |s.reqs.Keys|;
  }

  lemma BackMergeKeeps(s: State, x: Id, n: nat)
    requires Right(s) && x in s.reqs && s.reqs[x].mergeable
    ensures Right(BackMerged(s, x, n))
    ensures BackMerged(s, x, n).reqs == s.reqs[x := s.reqs[x].(length := s.reqs[x].length + n)]
  {
    hide *;
    var r := s.reqs[x].(length := s.reqs[x].length + n);
    RepositionKeeps(s, x, r);
    LastOnly(Repositioned(s, x, r), x);
    BackMergedIs(s, x, n);
  }

  lemma BackMergedIs(s: State, x: Id, n: nat)
    requires |s.chains| == ENTRIES && x in s.reqs
    ensures BackMerged(s, x, n) ==
      Repositioned(s, x, s.reqs[x].(length := s.reqs[x].length + n)).(last := Some(x))
  {
  }

  lemma JoinedIs(s: State, x: Id, y: Id)
    requires |s.chains| == ENTRIES && x in s.reqs && y in s.reqs && x != y && s.nrSorted > 0
    ensures
      var r := s.reqs[x].(length := s.reqs[x].length + s.reqs[y].length);
      Joined(s, x, y) == Left(Repositioned(s, x, r), y).(last := Some(x))
  {
    hide Left, Repositioned;
  }

  /** The end of the request does not move, so the hash stays right as it is. */
  lemma FrontMergeKeeps(s: State, x: Id, n: nat)
    requires Right(s) && x in s.reqs && s.reqs[x].mergeable && n <= s.reqs[x].sector
    ensures Right(FrontMerged(s, x, n)) && FrontMerged(s, x, n).chains == s.chains
    ensures Key(FrontMerged(s, x, n).reqs[x]) == Key(s.reqs[x])
    ensures FrontMerged(s, x, n).reqs == s.reqs[x := Req(s.reqs[x].sector - n, s.reqs[x].length + n, true)]
  {
    hide Fn;
    var t := FrontMerged(s, x, n);
    assert t.reqs.Keys == s.reqs.Keys;
    assert |t.reqs.Keys| == |s.reqs.Keys|;
  }

  lemma RefuseKeeps(s: State, x: Id)
    requires Right(s) && x in s.reqs
    ensures Right(Refused(s, x)) && Refused(s, x).reqs == s.reqs[x := s.reqs[x].(mergeable := false)]
  {
    hide Fn;
    var t := Refused(s, x);
    assert t.reqs.Keys == s.reqs.Keys;
    assert |t.reqs.Keys| == |s.reqs.Keys|;
  }

  lemma Counted(m: map<Id, Req>, x: Id)
    requires x in m
    ensures |m| > 0 && |m - {x}| == |m| - 1
  {
    assert (m - {x}).Keys == m.Keys - {x};
    assert |m.Keys - {x}| == |m.Keys| - 1;
  }

  lemma LeaveKeeps(s: State, x: Id)
    requires Right(s) && x in s.reqs
    ensures |s.chains| == ENTRIES && s.nrSorted > 0
    ensures Right(Left(s, x)) && Left(s, x).reqs == s.reqs - {x}
    ensures forall h :: 0 <= h < ENTRIES ==> x !in Left(s, x).chains[h]
  {
    hide Fn;
    Counted(s.reqs, x);
    UnhashedFacts(s, x);
  }

  /** Of two requests one is left; when the one begins where the other ends, it covers the sectors of both. */
  lemma JoinKeeps(s: State, x: Id, y: Id)
    requires Right(s) && x in s.reqs && y in s.reqs && x != y && s.reqs[x].mergeable && s.reqs[y].mergeable
    ensures s.nrSorted > 0 && Right(Joined(s, x, y))
    ensures
      var j := Req(s.reqs[x].sector, s.reqs[x].length + s.reqs[y].length, true);
      && Joined(s, x, y).reqs == s.reqs[x := j] - {y}
      && (Key(s.reqs[x]) == s.reqs[y].sector ==> j.sector + j.length == Key(s.reqs[y]))
  {
    hide *;
    LeaveKeeps(s, y);
    var r := s.reqs[x].(length := s.reqs[x].length + s.reqs[y].length);
    RepositionKeeps(s, x, r);
    var t := Repositioned(s, x, r);
    LeaveKeeps(t, y);
    LastOnly(Left(t, y), x);
    JoinedIs(s, x, y);
    Ends(s.reqs[x], s.reqs[y]);
  }

  lemma Ends(a: Req, b: Req)
    ensures Key(a) == b.sector ==> a.sector + (a.length + b.length) == Key(b)
  {
  }

  lemma LastOnly(s: State, x: Id)
    requires Right(s) && x in s.reqs && s.reqs[x].mergeable
    ensures Right(s.(last := Some(x)))
  {
  }

  // ----- runs -----

  datatype Step =
    | Add(id: Id, req: Req)
    | Lookup(offset: nat)
    | BackMerge(id: Id, n: nat)
    | FrontMerge(id: Id, n: nat)
    | Join(id: Id, next: Id)
    | Leave(id: Id)
    | Refuse(id: Id)

  predicate Mergeable(s: State, x: Id) { x in s.reqs && s.reqs[x].mergeable }

  predicate Enabled(s: State, e: Step) {
    match e
    case Add(x, _) => x !in s.reqs
    case Lookup(_) => true
    case BackMerge(x, _) => Mergeable(s, x)
    case FrontMerge(x, n) => Mergeable(s, x) && n <= s.reqs[x].sector
    case Join(x, y) => Mergeable(s, x) && Mergeable(s, y) && x != y && Key(s.reqs[x]) == s.reqs[y].sector
    case Leave(x) => x in s.reqs
    case Refuse(x) => x in s.reqs
  }

  function Apply(s: State, e: Step): (t: State)
    requires Right(s) && Enabled(s, e)
    ensures Right(t)
  {
    match e
    case Add(x, r) => AddKeeps(s, x, r); Added(s, x, r)
    case Lookup(offset) => LookupExact(s, offset); Found(s, offset).0
    case BackMerge(x, n) => BackMergeKeeps(s, x, n); BackMerged(s, x, n)
    case FrontMerge(x, n) => FrontMergeKeeps(s, x, n); FrontMerged(s, x, n)
    case Join(x, y) => JoinKeeps(s, x, y); Joined(s, x, y)
    case Leave(x) => LeaveKeeps(s, x); Left(s, x)
    case Refuse(x) => RefuseKeeps(s, x); Refused(s, x)
  }

  predicate Runs(s: State, steps: seq<Step>)
    requires Right(s)
    decreases |steps|
  {
    steps == [] || (Enabled(s, steps[0]) && Runs(Apply(s, steps[0]), steps[1..]))
  }

  function Run(s: State, steps: seq<Step>): (t: State)
    requires Right(s) && Runs(s, steps)
    ensures Right(t)
    decreases |steps|
  {
    if steps == [] then s else Run(Apply(s, steps[0]), steps[1..])
  }

  function Init(): (s: State)
    ensures Right(s)
  {
    State(seq(ENTRIES, _ => []), map[], 0, None)
  }

  /** In every reachable state a lookup agrees with a search through the whole scheduler, and the
      count and the one-hit cache are right. */
  lemma HashAgrees(steps: seq<Step>, offset: nat)
    requires Runs(Init(), steps)
    ensures
      var s := Run(Init(), steps);
      && (Found(s, offset).1 != None <==>
            exists x :: x in s.reqs && s.reqs[x].mergeable && Key(s.reqs[x]) == offset)
      && (Found(s, offset).1 != None ==>
            var x := Found(s, offset).1.value;
            x in s.reqs && s.reqs[x].mergeable && Key(s.reqs[x]) == offset)
      && s.nrSorted == |s.reqs|
      && (s.last != None ==> Mergeable(s, s.last.value))
  {
    LookupExact(Run(Init(), steps), offset);
  }

  // ----- the one-hit cache -----

  predicate Merges(e: Step, x: Id) {
    match e
    case BackMerge(y, _) => y == x
    case FrontMerge(y, _) => y == x
    case Join(y, _) => y == x
    case _ => false
  }

  /** No other request is merged in the run, and `x` neither leaves, nor is absorbed, nor loses mergeability. */
  predicate Undisturbed(steps: seq<Step>, x: Id) {
    forall i :: 0 <= i < |steps| ==>
      match steps[i]
      case BackMerge(y, _) => y == x
      case FrontMerge(y, _) => y == x
      case Join(y, z) => y == x != z
      case Leave(y) => y != x
      case Refuse(y) => y != x
      case _ => true
  }

  lemma {:induction false} StaysLast(s: State, steps: seq<Step>, x: Id)
    requires Right(s) && Runs(s, steps) && Undisturbed(steps, x) && s.last == Some(x)
    ensures Run(s, steps).last == Some(x)
    decreases |steps|
  {
    if steps != [] {
      KeepsLast(s, steps[0], x);
      hide Right, Apply, Enabled;
      assert forall i :: 0 <= i < |steps[1..]| ==> steps[1..][i] == steps[i + 1];
      StaysLast(Apply(s, steps[0]), steps[1..], x);
    }
  }

  lemma KeepsLast(s: State, e: Step, x: Id)
    requires Right(s) && Enabled(s, e) && Undisturbed([e], x) && s.last == Some(x)
    ensures Apply(s, e).last == Some(x)
  {
    assert [e][0] == e;
    hide Sound, Complete;
  }

  /** q->last_merge is the request merged last, as long as that can still be merged. */
  lemma LastMerged(s: State, e: Step, steps: seq<Step>, x: Id)
    requires Right(s) && Enabled(s, e) && Merges(e, x) && Runs(Apply(s, e), steps) && Undisturbed(steps, x)
    ensures Run(Apply(s, e), steps).last == Some(x)
  {
    MergeSets(s, e, x);
    hide Right, Apply, Enabled;
    StaysLast(Apply(s, e), steps, x);
  }

  lemma MergeSets(s: State, e: Step, x: Id)
    requires Right(s) && Enabled(s, e) && Merges(e, x)
    ensures Apply(s, e).last == Some(x)
  {
    hide Sound, Complete;
  }

  /** Until something is merged it is the first request that could be, of those added since it was lost. */
  lemma FirstAdded(s: State, y: Id, r: Req)
    requires Right(s) && Enabled(s, Add(y, r))
    ensures Apply(s, Add(y, r)).last == if s.last != None || !r.mergeable then s.last else Some(y)
  {
    hide Sound, Complete;
  }
}

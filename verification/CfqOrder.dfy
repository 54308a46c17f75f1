/** The order of the CFQ service tree: class, then key. */
module CfqOrder {
  import opened Options
  import opened Lists
  import opened CfqQueue
  import opened Cfq

  // ----- ranks and the walk -----

  /** What the walk compares: RT queues first, idle ones last, then by key. */
  datatype Rank = Rank(rt: bool, idle: bool, key: nat)

  predicate GoesLeft(a: Rank, b: Rank) {
    if a.rt != b.rt then a.rt
    else if a.idle != b.idle then b.idle
    else a.key < b.key
  }

  /** Where a walk down a tree with this order may end, whatever the shape of the tree: between a
      queue from which it went right and one from which it went left. */
  predicate WalkEnds(rank: map<nat, Rank>, order: seq<nat>, i: nat, pos: nat)
    requires i in rank && forall j :: j in order ==> j in rank
  {
    && pos <= |order|
    && (pos > 0 ==> !GoesLeft(rank[i], rank[order[pos - 1]]))
    && (pos < |order| ==> GoesLeft(rank[i], rank[order[pos]]))
  }

  predicate InRank(rank: map<nat, Rank>, order: seq<nat>)
    requires forall j :: j in order ==> j in rank
  {
    forall a, b :: 0 <= a < b < |order| ==> !GoesLeft(rank[order[b]], rank[order[a]])
  }

  /** The tree stays in rank order, and a queue goes behind those of equal rank. */
  lemma PlacedInRank(rank: map<nat, Rank>, order: seq<nat>, i: nat, pos: nat)
    requires i in rank && (forall j :: j in order ==> j in rank)
    requires InRank(rank, order) && WalkEnds(rank, order, i, pos)
    ensures
      var r := InsertAt(order, pos, i);
      && (forall j :: j in r ==> j in rank) && InRank(rank, r)
      && forall a :: 0 <= a < |r| && a != pos ==>
        (a < pos <==> !GoesLeft(rank[i], rank[r[a]]))
  {
    InsertFacts(order, pos, i);
    WalkSplits(rank, order, i, pos);
    hide InRank, WalkEnds, GoesLeft;
    InsertInRank(rank, order, i, pos);
  }

  /** All before the place were passed to the right, all behind it would be to the left. */
  lemma WalkSplits(rank: map<nat, Rank>, order: seq<nat>, i: nat, pos: nat)
    requires i in rank && (forall j :: j in order ==> j in rank)
    requires InRank(rank, order) && WalkEnds(rank, order, i, pos)
    ensures forall a :: 0 <= a < |order| ==> (a < pos <==> !GoesLeft(rank[i], rank[order[a]]))
  {
    forall a | 0 <= a < |order| ensures a < pos <==> !GoesLeft(rank[i], rank[order[a]]) {
      if a < pos {
        assert a < pos - 1 ==> !GoesLeft(rank[order[pos - 1]], rank[order[a]]);
      } else {
        assert pos < a ==> !GoesLeft(rank[order[a]], rank[order[pos]]);
      }
    }
  }

  lemma LeftNotBack(a: Rank, b: Rank)
    requires GoesLeft(a, b)
    ensures !GoesLeft(b, a)
  {
  }

  lemma InsertInRank(rank: map<nat, Rank>, order: seq<nat>, i: nat, pos: nat)
    requires i in rank && pos <= |order| && (forall j :: j in order ==> j in rank)
    requires InRank(rank, order)
    requires forall a :: 0 <= a < |order| ==> (a < pos <==> !GoesLeft(rank[i], rank[order[a]]))
    ensures
      var r := InsertAt(order, pos, i);
      (forall j :: j in r ==> j in rank) && InRank(rank, r)
  {
    var r := InsertAt(order, pos, i);
    InsertFacts(order, pos, i);
    forall a, b | 0 <= a < b < |r| ensures !GoesLeft(rank[r[b]], rank[r[a]]) {
      if a == pos {
        LeftNotBack(rank[i], rank[order[b - 1]]);
      } else if b != pos {
        var a1, b1 := if a < pos then a else a - 1, if b < pos then b else b - 1;
        assert !GoesLeft(rank[order[b1]], rank[order[a1]]);
      }
    }
  }

  /** A binary tree of queues, of any shape. */
  datatype Tree = Leaf | Node(left: Tree, i: nat, right: Tree)

  function InOrder(t: Tree): seq<nat> {
    match t
    case Leaf => []
    case Node(l, i, r) => InOrder(l) + [i] + InOrder(r)
  }

  /** The walk has come to the part `mid` of the order: `before` was passed to the right, `behind` to
      the left. */
  predicate Walking(rank: map<nat, Rank>, order: seq<nat>, i: nat, before: seq<nat>, mid: seq<nat>, behind: seq<nat>)
    requires i in rank && forall j :: j in order ==> j in rank
  {
    && order == before + mid + behind
    && (before != [] ==> !GoesLeft(rank[i], rank[order[|before| - 1]]))
    && (behind != [] ==> GoesLeft(rank[i], rank[order[|order| - |behind|]]))
  }

  lemma WalkTurns(rank: map<nat, Rank>, order: seq<nat>, i: nat, before: seq<nat>,
                  left: seq<nat>, x: nat, right: seq<nat>, behind: seq<nat>)
    requires i in rank && forall j :: j in order ==> j in rank
    requires Walking(rank, order, i, before, left + [x] + right, behind)
    ensures x in rank
    ensures GoesLeft(rank[i], rank[x]) ==> Walking(rank, order, i, before, left, [x] + right + behind)
    ensures !GoesLeft(rank[i], rank[x]) ==> Walking(rank, order, i, before + left + [x], right, behind)
  {
    hide GoesLeft;
    assert order[|before| + |left|] == x;
    assert order == before + left + ([x] + right + behind);
    assert order == (before + left + [x]) + right + behind;
  }

  lemma WalkIsOver(rank: map<nat, Rank>, order: seq<nat>, i: nat, before: seq<nat>, behind: seq<nat>)
    requires i in rank && forall j :: j in order ==> j in rank
    requires Walking(rank, order, i, before, [], behind)
    ensures WalkEnds(rank, order, i, |before|)
  {
    hide GoesLeft;
  }

  lemma WalkStarts(rank: map<nat, Rank>, order: seq<nat>, i: nat)
    requires i in rank && forall j :: j in order ==> j in rank
    ensures Walking(rank, order, i, [], order, [])
  {
    assert order == [] + order + [];
  }

  /** The walk of cfq_service_tree_add ends at such a place, in a tree of any shape and even when the
      tree is not in rank order; it went left all the way exactly when that is the front. */
  method Walk(tree: Tree, rank: map<nat, Rank>, i: nat) returns (ghost pos: nat, left: bool)
    requires i in rank && forall j :: j in InOrder(tree) ==> j in rank
    ensures WalkEnds(rank, InOrder(tree), i, pos)
    ensures left <==> pos == 0
  {
    hide Walking, WalkEnds, GoesLeft;
    ghost var order, before, behind := InOrder(tree), [], [];
    WalkStarts(rank, order, i);
    var p := tree;
    left := true;
    while p != Leaf
      invariant order == InOrder(tree) && Walking(rank, order, i, before, InOrder(p), behind)
      invariant left <==> before == []
      decreases p
    {
      WalkTurns(rank, order, i, before, InOrder(p.left), p.i, InOrder(p.right), behind);
      if GoesLeft(rank[i], rank[p.i]) {
        behind := [p.i] + InOrder(p.right) + behind;
        p := p.left;
      } else {
        before := before + InOrder(p.left) + [p.i];
        p := p.right;
        left := false;
      }
    }
    WalkIsOver(rank, order, i, before, behind);
    pos := |before|;
  }

  // ----- a tree that is in order -----

  ghost predicate Ranked(rank: map<nat, Rank>, order: seq<nat>) {
    (forall j :: j in order ==> j in rank) && InRank(rank, order)
  }

  lemma RemoveRanked(rank: map<nat, Rank>, order: seq<nat>, i: nat)
    requires Ranked(rank, order) && i in order
    ensures Ranked(rank, Remove(order, i))
  {
    hide GoesLeft, Remove;
    var k, r := Index(order, i), Remove(order, i);
    RemoveAt(order, i);
    forall j | j in r ensures j in rank {
      var a :| 0 <= a < |r| && r[a] == j;
      assert order[if a < k then a else a + 1] == j;
    }
    forall a, b | 0 <= a < b < |r| ensures !GoesLeft(rank[r[b]], rank[r[a]]) {
      var a1, b1 := if a < k then a else a + 1, if b < k then b else b + 1;
      assert !GoesLeft(rank[order[b1]], rank[order[a1]]);
    }
  }

  /** No queue is to be served before the first. */
  lemma FirstIsLeast(rank: map<nat, Rank>, order: seq<nat>)
    requires Ranked(rank, order) && order != []
    ensures forall j :: j in order ==> !GoesLeft(rank[j], rank[order[0]])
  {
    forall j | j in order ensures !GoesLeft(rank[j], rank[order[0]]) {
      var a :| 0 <= a < |order| && order[a] == j;
      if a > 0 {
        assert !GoesLeft(rank[order[a]], rank[order[0]]);
      }
    }
  }

  // ----- where each step of the scheduler puts a queue -----

  /** cfq_service_tree_add finds the tree as `tree`, with queue `i` on it or not, and puts `i` at `pos` of
      what is left without it. */
  datatype Placement = Placement(i: nat, tree: seq<nat>, order: seq<nat>, pos: nat)

  function AddPlacement(h: Head, d: Data, i: nat, x: Rq, pos: nat): Option<Placement>
    requires Addable(d, i, x)
  {
    var order := ClearAlias(h, d, i, x).root.order;
    if i in order then None else Some(Placement(i, order, order, Clamp(pos, |order|)))
  }

  function ResortPlacement(d: Data, i: nat, pos: nat): Option<Placement> {
    if i !in d.root.order then None
    else
      var order := Remove(d.root.order, i);
      Some(Placement(i, d.root.order, order, Clamp(pos, |order|)))
  }

  function ExpirePlacement(d: Data, pos: nat): Option<Placement> {
    if d.active == None then None else ResortPlacement(d, d.active.value, pos)
  }

  function PlacementOf(h: Head, d: Data, e: Step): Option<Placement>
    requires Inv(d) && Enabled(d, e)
  {
    match e
    case Insert(i, x, pos) => InsertKeeps(h, d, i, x, pos); AddPlacement(h, Joined(d, i, x), i, x, pos)
    case FrontMerge(i, k, s, pos) =>
      RepositionKeeps(h, d, i, k, s, pos);
      AddPlacement(h, TakeOut(d, i, k, s), i, d.qs[i].sort[k].(sector := s), pos)
    case Resort(i, pos) => ResortPlacement(d, i, pos)
    case Expire(pos) => ExpirePlacement(d, pos)
    case Select(used, idle, pos) =>
      if d.active != None && !used && (d.qs[d.active.value].sort != [] || idle) then None
      else ExpirePlacement(d, pos)
    case _ => None
  }

  /** At most queue `i` has left. */
  predicate Less(order: seq<nat>, next: seq<nat>, i: nat) {
    next == order || (i in order && next == Remove(order, i))
  }

  /** The queue is off the tree, or it is still on it. */
  predicate Whence(order: seq<nat>, p: Placement) { p.tree == if p.i in p.tree then order else p.order }

  /** What a step does to the order of the tree: a queue may leave, or all of them may; or one is put
      into what is left after it was taken out. */
  ghost predicate Moves(order: seq<nat>, p: Option<Placement>, next: seq<nat>) {
    if p == None then next == [] || exists i :: Less(order, next, i)
    else
      && p.value.i !in p.value.order && p.value.pos <= |p.value.order|
      && Whence(order, p.value)
      && Less(order, p.value.order, p.value.i)
      && next == InsertAt(p.value.order, p.value.pos, p.value.i)
  }

  lemma DispatchMoves(h: Head, d: Data, i: nat, k: nat)
    requires Removable(d, i, k)
    ensures Less(d.root.order, DispatchInsert(h, d, i, k).root.order, i)
    ensures
      var r := DispatchInsert(h, d, i, k);
      |r.qs| == |d.qs| && (r.root.order == d.root.order || r.qs[i].sort == [])
  {
    hide Removed, Remove;
  }

  lemma AddMoves(h: Head, d: Data, i: nat, x: Rq, pos: nat)
    requires Addable(d, i, x)
    ensures Moves(d.root.order, AddPlacement(h, d, i, x, pos), AddRb(h, d, i, x, pos).root.order)
  {
    if HasAlias(d.qs[i].sort, x.sector) {
      DispatchMoves(h, d, i, Slot(d.qs[i].sort, x.sector));
    }
    var order := ClearAlias(h, d, i, x).root.order;
    hide Linked, DispatchInsert, Removable, HasAlias, Less, Remove, ClearAlias;
    assert Less(d.root.order, order, i);
  }

  lemma ResortMoves(d: Data, i: nat, pos: nat)
    requires RootOk(d.root)
    ensures Moves(d.root.order, ResortPlacement(d, i, pos), Resorted(d, i, pos).root.order)
  {
    hide Remove, InsertAt;
    if i in d.root.order {
      RemoveFacts(d.root.order, i);
    } else {
      assert Less(d.root.order, d.root.order, i);
    }
  }

  lemma ExpireMoves(d: Data, pos: nat)
    requires RootOk(d.root)
    ensures Moves(d.root.order, ExpirePlacement(d, pos), Expired(d, pos).root.order)
  {
    if d.active != None {
      ResortMoves(d, d.active.value, pos);
    } else {
      assert Less(d.root.order, d.root.order, 0);
    }
    hide Moves, Resorted, ResortPlacement;
  }

  lemma {:induction false} RoundMoves(h: Head, d: Data, i: nat, expired: seq<bool>)
    requires Inv(d) && i < |d.qs|
    ensures Less(d.root.order, Round(h, d, i, expired).0.root.order, i)
    decreases |expired|
  {
    if expired != [] && d.qs[i].sort != [] {
      var k := Pick(d.qs[i], expired[0]);
      DispatchKeeps(h, d, i, k);
      DispatchMoves(h, d, i, k);
      RoundMoves(h, DispatchInsert(h, d, i, k), i, expired[1..]);
      hide Inv, DispatchInsert, Account, Remove, Pick;
    }
  }

  lemma MergedMoves(h: Head, d: Data, i: nat, k: nat, j: nat, older: bool)
    requires Inv(d) && i < |d.qs| && k < |d.qs[i].sort| && j < |d.qs[i].sort| && k != j
    ensures Less(d.root.order, Merged(h, d, i, k, j, older).root.order, i)
  {
    var fifo := FifoAfter(d.qs[i], k, j, older);
    SetFifoKeeps(d, i, fifo);
    var d1 := d.(qs := d.qs[i := d.qs[i].(fifo := fifo)]);
    RemoveRqKeeps(h, d1, i, j);
    DispatchMoves(h, d1, i, j);
    hide Inv, RemoveRq, Remove, FifoAfter;
  }

  lemma StepMoves(h: Head, d: Data, e: Step)
    requires Inv(d) && Enabled(d, e)
    ensures Moves(d.root.order, PlacementOf(h, d, e), Apply(h, d, e).root.order)
  {
    match e
    case Insert(i, x, pos) => InsertKeeps(h, d, i, x, pos); AddMoves(h, Joined(d, i, x), i, x, pos);
    case FrontMerge(i, k, s, pos) =>
      RepositionKeeps(h, d, i, k, s, pos);
      AddMoves(h, TakeOut(d, i, k, s), i, d.qs[i].sort[k].(sector := s), pos);
    case Merge(i, k, j, older) => MergedMoves(h, d, i, k, j, older);
    case Resort(i, pos) => ResortMoves(d, i, pos);
    case Expire(pos) => ExpireMoves(d, pos);
    case Select(used, idle, pos) => SelectMoves(d, used, idle, pos);
    case Serve(i, expired) => RoundMoves(h, d, i, expired);
    case Force(pos) => ForceMoves(h, d, pos);
  }

  lemma SelectMoves(d: Data, used: bool, idle: bool, pos: nat)
    requires Inv(d)
    ensures
      var p := if d.active != None && !used && (d.qs[d.active.value].sort != [] || idle) then None
               else ExpirePlacement(d, pos);
      Moves(d.root.order, p, Selected(d, used, idle, pos).0.root.order)
  {
    ExpireMoves(d, pos);
    assert Less(d.root.order, d.root.order, 0);
    hide Good, Total, OnTree, ExpirePlacement, Expired, Less;
  }

  lemma ForceMoves(h: Head, d: Data, pos: nat)
    requires Inv(d)
    ensures Forced(h, d, pos).0.root.order == []
  {
    ForcedEmptiesAll(h, d, pos);
  }

  // ----- runs -----

  /** The scheduler, with the class and the key that each queue has, the time, and CFQ_IDLE_DELAY. */
  datatype World = World(d: Data, rank: map<nat, Rank>, now: nat, idleDelay: nat)

  /** A step of the scheduler at some time, with the key of the queue that it places, if it places one, and
      the class of that queue; or a change of a queue's class, which moves nothing. */
  datatype Event = Act(now: nat, h: Head, step: Step, rank: Rank) | SetClass(i: nat, rt: bool, idle: bool)

  /** The key of an idle queue is CFQ_IDLE_DELAY after that of the last queue on the tree; if there is none, or
      it is the queue itself, after the time. */
  predicate IdleKey(rank: map<nat, Rank>, tree: seq<nat>, i: nat, key: nat, now: nat, idleDelay: nat)
    requires forall j :: j in tree ==> j in rank
  {
    var n := |tree|;
    key == idleDelay + if n > 0 && tree[n - 1] != i then rank[tree[n - 1]].key else now
  }

  /** With the key that it has on the tree the queue stays where it is; otherwise it goes where the walk ends. */
  predicate PlacedWell(rank: map<nat, Rank>, p: Placement, r: Rank)
    requires forall j :: j in p.order ==> j in rank
  {
    if p.i in p.tree && p.i in rank && r.key == rank[p.i].key then
      InsertAt(p.order, Clamp(p.pos, |p.order|), p.i) == p.tree
    else WalkEnds(rank[p.i := r], p.order, p.i, p.pos)
  }

  predicate SameClass(a: Rank, b: Rank) { a.rt == b.rt && a.idle == b.idle }

  /** A queue is placed by the class it has, with the key that the rule for idle queues demands; the keys of the
      others, which depend on slices and priorities, may be any. */
  predicate Places(w: World, now: nat, p: Placement, r: Rank) {
    && (forall j :: j in p.tree ==> j in w.rank) && (forall j :: j in p.order ==> j in w.rank)
    && (p.i in w.rank ==> SameClass(r, w.rank[p.i]))
    && (r.idle ==> IdleKey(w.rank, p.tree, p.i, r.key, now, w.idleDelay))
    && PlacedWell(w.rank, p, r)
  }

  predicate Possible(w: World, e: Event)
    requires Inv(w.d)
  {
    match e
    case Act(now, h, s, r) =>
      w.now <= now && Enabled(w.d, s) && var p := PlacementOf(h, w.d, s);
      p == None || Places(w, now, p.value, r)
    case SetClass(i, _, _) => i in w.rank
  }

  function Next(w: World, e: Event): (w1: World)
    requires Inv(w.d) && Possible(w, e)
    ensures Inv(w1.d)
  {
    match e
    case Act(now, h, s, r) =>
      var p := PlacementOf(h, w.d, s);
      World(Apply(h, w.d, s), if p == None then w.rank else w.rank[p.value.i := r], now, w.idleDelay)
    case SetClass(i, rt, idle) => w.(rank := w.rank[i := w.rank[i].(rt := rt, idle := idle)])
  }

  lemma PlacedRanked(order: seq<nat>, w: World, now: nat, p: Placement, r: Rank)
    requires Ranked(w.rank, order) && Less(order, p.order, p.i) && p.i !in p.order && p.pos <= |p.order|
    requires Whence(order, p) && Places(w, now, p, r)
    ensures Ranked(w.rank[p.i := r], InsertAt(p.order, p.pos, p.i))
  {
    hide GoesLeft, IdleKey, InsertAt, InRank;
    if p.i in p.tree && p.i in w.rank && r.key == w.rank[p.i].key {
      assert w.rank[p.i := r] == w.rank;
    } else {
      LessRanked(w.rank, order, p.order, p.i);
      OthersRanked(w.rank, p.order, p.i, r);
      PlacedInRank(w.rank[p.i := r], p.order, p.i, p.pos);
    }
  }

  lemma OthersRanked(rank: map<nat, Rank>, order: seq<nat>, i: nat, r: Rank)
    requires Ranked(rank, order) && i !in order
    ensures Ranked(rank[i := r], order)
  {
    hide GoesLeft;
  }

  lemma LessRanked(rank: map<nat, Rank>, order: seq<nat>, next: seq<nat>, i: nat)
    requires Ranked(rank, order) && Less(order, next, i)
    ensures Ranked(rank, next)
  {
    if next != order {
      RemoveRanked(rank, order, i);
    }
  }

  // ----- a class that changes on the tree -----

  lemma Transitive(a: Rank, b: Rank, c: Rank)
    requires !GoesLeft(b, a) && !GoesLeft(c, b)
    ensures !GoesLeft(c, a)
  {
  }

  /** Changing the class of the queue at `k` on the tree keeps rank order exactly when the queue still
      stands right between its neighbours. */
  lemma ChangedExactly(rank: map<nat, Rank>, order: seq<nat>, k: nat, r: Rank)
    requires Ranked(rank, order) && NoDup(order) && k < |order|
    ensures Ranked(rank[order[k] := r], order) <==>
      && (k > 0 ==> !GoesLeft(r, rank[order[k - 1]]))
      && (k + 1 < |order| ==> !GoesLeft(rank[order[k + 1]], r))
  {
    var rank1 := rank[order[k] := r];
    assert forall a :: 0 <= a < |order| && a != k ==> rank1[order[a]] == rank[order[a]];
    if Ranked(rank1, order) {
      assert k > 0 ==> !GoesLeft(rank1[order[k]], rank1[order[k - 1]]);
      assert k + 1 < |order| ==> !GoesLeft(rank1[order[k + 1]], rank1[order[k]]);
    }
    if (k > 0 ==> !GoesLeft(r, rank[order[k - 1]])) && (k + 1 < |order| ==> !GoesLeft(rank[order[k + 1]], r)) {
      BetweenRanked(rank, order, k, r);
    }
  }

  lemma BetweenRanked(rank: map<nat, Rank>, order: seq<nat>, k: nat, r: Rank)
    requires Ranked(rank, order) && NoDup(order) && k < |order|
    requires k > 0 ==> !GoesLeft(r, rank[order[k - 1]])
    requires k + 1 < |order| ==> !GoesLeft(rank[order[k + 1]], r)
    ensures Ranked(rank[order[k] := r], order)
  {
    var rank1 := rank[order[k] := r];
    assert forall a :: 0 <= a < |order| && a != k ==> rank1[order[a]] == rank[order[a]];
    forall a, b | 0 <= a < b < |order| ensures !GoesLeft(rank1[order[b]], rank1[order[a]]) {
      assert !GoesLeft(rank[order[b]], rank[order[a]]);
      if b == k && a < k - 1 {
        Transitive(rank[order[a]], rank[order[k - 1]], r);
      } else if a == k && k + 1 < b {
        Transitive(r, rank[order[k + 1]], rank[order[b]]);
      }
    }
  }

  // ----- histories -----

  /** Queue `i` of the tree, with rank `r`, would stand right with both neighbours. */
  predicate Fits(rank: map<nat, Rank>, order: seq<nat>, i: nat, r: Rank)
    requires i in order
  {
    var k := Index(order, i);
    && (forall j :: j in order ==> j in rank)
    && (k > 0 ==> !GoesLeft(r, rank[order[k - 1]]))
    && (k + 1 < |order| ==> !GoesLeft(rank[order[k + 1]], r))
  }

  /** If the event changes the class of a queue on the tree, the queue still stands right there. */
  predicate Fitting(w: World, e: Event) {
    e.SetClass? && e.i in w.d.root.order ==>
      e.i in w.rank && Fits(w.rank, w.d.root.order, e.i, w.rank[e.i].(rt := e.rt, idle := e.idle))
  }

  /** From a tree in rank order, one event leads to a tree in rank order exactly when it is fitting. */
  lemma EventRanked(w: World, e: Event)
    requires Inv(w.d) && Ranked(w.rank, w.d.root.order) && Possible(w, e)
    ensures Ranked(Next(w, e).rank, Next(w, e).d.root.order) <==> Fitting(w, e)
  {
    if e.Act? {
      ActRanked(w, e);
    } else {
      InvRoot(w.d);
      hide Inv, GoesLeft, Ranked;
      var r := w.rank[e.i].(rt := e.rt, idle := e.idle);
      if e.i in w.d.root.order {
        ChangedExactly(w.rank, w.d.root.order, Index(w.d.root.order, e.i), r);
        RankedKnows(w.rank, w.d.root.order);
      } else {
        OthersRanked(w.rank, w.d.root.order, e.i, r);
      }
    }
  }

  lemma RankedKnows(rank: map<nat, Rank>, order: seq<nat>)
    requires Ranked(rank, order)
    ensures forall j :: j in order ==> j in rank
  {
  }

  /** Every step of the scheduler keeps the tree in rank order. */
  lemma ActRanked(w: World, e: Event)
    requires Inv(w.d) && Ranked(w.rank, w.d.root.order) && Possible(w, e) && e.Act?
    ensures Ranked(Next(w, e).rank, Next(w, e).d.root.order)
  {
    StepMoves(e.h, w.d, e.step);
    var p, order, next := PlacementOf(e.h, w.d, e.step), w.d.root.order, Apply(e.h, w.d, e.step).root.order;
    hide Inv, Enabled, PlacementOf, Apply, Places, Less, InRank, Whence;
    if p != None {
      PlacedRanked(order, w, e.now, p.value, e.rank);
    } else if next != [] {
      var i :| Less(order, next, i);
      LessRanked(w.rank, order, next, i);
    } else {
      EmptyRanked(w.rank);
    }
  }

  lemma EmptyRanked(rank: map<nat, Rank>)
    ensures Ranked(rank, [])
  {
  }

  ghost predicate Histories(w: World, es: seq<Event>, w1: World)
    requires Inv(w.d)
    decreases |es|
  {
    if es == [] then w == w1 else Possible(w, es[0]) && Histories(Next(w, es[0]), es[1..], w1)
  }

  /** Every change of class on the tree leaves the queue right with both neighbours. */
  ghost predicate ClassesFit(w: World, es: seq<Event>)
    requires Inv(w.d)
    decreases |es|
  {
    es == [] || (Possible(w, es[0]) && Fitting(w, es[0]) && ClassesFit(Next(w, es[0]), es[1..]))
  }

  /** The tree is in rank order now and after every event. */
  ghost predicate AlwaysRanked(w: World, es: seq<Event>)
    requires Inv(w.d)
    decreases |es|
  {
    && Ranked(w.rank, w.d.root.order)
    && (es == [] || (Possible(w, es[0]) && AlwaysRanked(Next(w, es[0]), es[1..])))
  }

  function Empty(n: nat, idleDelay: nat): (w: World)
    ensures Inv(w.d) && w.d.root.order == [] && w.rank == map[] && |w.d.qs| == n
    ensures forall i :: 0 <= i < n ==> w.d.qs[i] == Cfqq([], [], None)
  {
    World(Init(n), map[], 0, idleDelay)
  }

  /** Over every history the tree is in rank order after every event if and only if every change of class on
      the tree leaves the queue right with both its neighbours. */
  lemma RankedExactly(n: nat, idleDelay: nat, es: seq<Event>, w: World)
    requires Histories(Empty(n, idleDelay), es, w)
    ensures AlwaysRanked(Empty(n, idleDelay), es) <==> ClassesFit(Empty(n, idleDelay), es)
  {
    hide Inv, Ranked, Histories, AlwaysRanked, ClassesFit;
    EmptyRanked(map[]);
    RankedFrom(Empty(n, idleDelay), es, w);
  }

  lemma {:induction false} RankedFrom(w: World, es: seq<Event>, w1: World)
    requires Inv(w.d) && Ranked(w.rank, w.d.root.order) && Histories(w, es, w1)
    ensures AlwaysRanked(w, es) <==> ClassesFit(w, es)
    ensures ClassesFit(w, es) ==> Inv(w1.d) && Ranked(w1.rank, w1.d.root.order)
    decreases |es|
  {
    hide Inv, Ranked, Possible, Next, Fitting;
    if es != [] {
      EventRanked(w, es[0]);
      if Fitting(w, es[0]) {
        RankedFrom(Next(w, es[0]), es[1..], w1);
      } else {
        NotRanked(Next(w, es[0]), es[1..]);
      }
    }
  }

  lemma NotRanked(w: World, es: seq<Event>)
    requires Inv(w.d) && !Ranked(w.rank, w.d.root.order)
    ensures !AlwaysRanked(w, es)
  {
    hide Inv, Ranked, Possible, Next;
  }

  /** The cached leftmost queue is then one that no other is to be served before. */
  lemma LeftmostIsLeast(n: nat, idleDelay: nat, es: seq<Event>, w: World)
    requires Histories(Empty(n, idleDelay), es, w) && ClassesFit(Empty(n, idleDelay), es)
    ensures Inv(w.d) && Ranked(w.rank, w.d.root.order)
    ensures
      var first := First(w.d.root).1;
      if first == None then w.d.root.order == []
      else first.value in w.d.root.order
           && forall j :: j in w.d.root.order ==> !GoesLeft(w.rank[j], w.rank[first.value])
  {
    hide Good, OnTree, Total, GoesLeft, InRank, Histories, ClassesFit;
    EmptyRanked(map[]);
    RankedFrom(Empty(n, idleDelay), es, w);
    FirstExact(w.d.root);
    if w.d.root.order != [] {
      FirstIsLeast(w.rank, w.d.root.order);
    }
  }

  // ----- a change of class that does not fit -----

  /** A request comes for a queue whose sorted list is empty: the queue is put where it is asked to. */
  lemma FirstInsert(w: World, h: Head, i: nat, x: Rq, pos: nat)
    requires Inv(w.d) && i < |w.d.qs| && w.d.qs[i].sort == [] && x.id !in w.d.qs[i].fifo && pos <= |w.d.root.order|
    ensures i !in w.d.root.order
    ensures PlacementOf(h, w.d, Insert(i, x, pos)) == Some(Placement(i, w.d.root.order, w.d.root.order, pos))
    ensures Apply(h, w.d, Insert(i, x, pos)).root.order == InsertAt(w.d.root.order, pos, i)
  {
    hide Good, RootOk, Total, Linked, Removable;
    InsertKeeps(h, w.d, i, x, pos);
    StepMoves(h, w.d, Insert(i, x, pos));
  }

  lemma InsertedOnly(h: Head, d: Data, i: nat, x: Rq, pos: nat, j: nat)
    requires Inv(d) && i < |d.qs| && d.qs[i].sort == [] && x.id !in d.qs[i].fifo
    requires j < |d.qs| && j != i
    ensures var r := Apply(h, d, Insert(i, x, pos)); |r.qs| == |d.qs| && r.qs[j] == d.qs[j]
  {
    hide Good, RootOk, Total, Linked, Removable;
    InsertKeeps(h, d, i, x, pos);
  }

  lemma HistoryStep(w: World, e: Event, es: seq<Event>, w1: World)
    requires Inv(w.d) && Possible(w, e) && Histories(Next(w, e), es, w1)
    ensures Histories(w, [e] + es, w1)
  {
    hide Inv, Possible, Next;
    assert ([e] + es)[1..] == es;
  }

  lemma HistoryEnd(w: World)
    requires Inv(w.d)
    ensures Histories(w, [], w)
  {
  }

  /** Queue `i` gets its first request and is put where the walk ends, with rank `r`. */
  lemma Arrives(w: World, now: nat, h: Head, i: nat, r: Rank, pos: nat) returns (e: Event)
    requires Inv(w.d) && i < |w.d.qs| && w.d.qs[i] == Cfqq([], [], None)
    requires w.now <= now && i !in w.rank && pos <= |w.d.root.order|
    requires (forall j :: j in w.d.root.order ==> j in w.rank) && WalkEnds(w.rank[i := r], w.d.root.order, i, pos)
    requires r.idle ==> IdleKey(w.rank, w.d.root.order, i, r.key, now, w.idleDelay)
    ensures Possible(w, e) && e.Act? && e.now == now && i !in w.d.root.order
    ensures Next(w, e).d.root.order == InsertAt(w.d.root.order, pos, i)
    ensures Next(w, e) == World(Next(w, e).d, w.rank[i := r], now, w.idleDelay)
    ensures |Next(w, e).d.qs| == |w.d.qs|
    ensures forall j :: 0 <= j < |w.d.qs| && j != i ==> Next(w, e).d.qs[j] == w.d.qs[j]
  {
    hide Inv, Apply, PlacementOf, GoesLeft, WalkEnds, IdleKey, InsertAt;
    var x := Rq(i, 8 * i, true, false);
    FirstInsert(w, h, i, x, pos);
    CanInsert(w.d, i, x, pos);
    InsertedCount(h, w.d, i, x, pos);
    forall j | 0 <= j < |w.d.qs| && j != i ensures Apply(h, w.d, Insert(i, x, pos)).qs[j] == w.d.qs[j] {
      InsertedOnly(h, w.d, i, x, pos, j);
    }
    e := Act(now, h, Insert(i, x, pos), r);
  }

  lemma CanInsert(d: Data, i: nat, x: Rq, pos: nat)
    requires i < |d.qs| && d.qs[i] == Cfqq([], [], None)
    ensures Enabled(d, Insert(i, x, pos))
  {
  }

  lemma InsertedCount(h: Head, d: Data, i: nat, x: Rq, pos: nat)
    requires Inv(d) && i < |d.qs| && d.qs[i].sort == [] && x.id !in d.qs[i].fifo
    ensures |Apply(h, d, Insert(i, x, pos)).qs| == |d.qs|
  {
    hide Good, RootOk, Total, Linked, Removable;
    InsertKeeps(h, d, i, x, pos);
  }

  /** The two events: an idle queue comes first, and gets the time and the delay for its key; later one of
      the best-effort class comes, with the time for its key, and is put before the idle one. */
  lemma TwoArrive(idleDelay: nat, h: Head) returns (e0: Event, e1: Event, w1: World, w2: World)
    ensures Possible(Empty(2, idleDelay), e0) && w1 == Next(Empty(2, idleDelay), e0)
    ensures Possible(w1, e1) && w2 == Next(w1, e1)
    ensures w2.d.root.order == [0, 1] && 0 in w2.rank && 1 in w2.rank
    ensures w2.rank[1] == Rank(false, true, idleDelay) && w2.rank[0] == Rank(false, false, idleDelay + 1)
  {
    hide Next, Inv, PlacementOf, Possible;
    var w0 := Empty(2, idleDelay);
    e0 := Arrives(w0, 0, h, 1, Rank(false, true, idleDelay), 0);
    w1 := Next(w0, e0);
    assert w1.d.root.order == [1];
    e1 := Arrives(w1, idleDelay + 1, h, 0, Rank(false, false, idleDelay + 1), 0);
    w2 := Next(w1, e1);
    assert w2.d.root.order == [0, 1];
  }

  /** It happens: when the idle queue is boosted it is to be served before the other, by its key, but the
      cached leftmost queue is still the other. */
  lemma BoostMisplaces(idleDelay: nat, h: Head) returns (es: seq<Event>, w: World)
    ensures Histories(Empty(2, idleDelay), es, w) && !ClassesFit(Empty(2, idleDelay), es)
    ensures First(w.d.root).1 == Some(0) && w.d.root.order == [0, 1]
    ensures 0 in w.rank && 1 in w.rank && GoesLeft(w.rank[1], w.rank[0])
  {
    hide Inv, Next, Possible, Histories, Empty, ClassesFit;
    var w0 := Empty(2, idleDelay);
    var e0, e1, w1, w2 := TwoArrive(idleDelay, h);
    var e2 := SetClass(1, false, false);
    w := Boosted(w2);
    HistoryEnd(w);
    HistoryStep(w2, e2, [], w);
    HistoryStep(w1, e1, [e2] + [], w);
    HistoryStep(w0, e0, [e1] + ([e2] + []), w);
    es := [e0] + ([e1] + ([e2] + []));
    InvRoot(w.d);
    FirstExact(w.d.root);
    if ClassesFit(w0, es) {
      LeftmostIsLeast(2, idleDelay, es, w);
    }
  }

  lemma Boosted(w: World) returns (w1: World)
    requires Inv(w.d) && 1 in w.rank
    ensures Possible(w, SetClass(1, false, false)) && w1 == Next(w, SetClass(1, false, false))
    ensures w1 == w.(rank := w.rank[1 := w.rank[1].(rt := false, idle := false)]) && Inv(w1.d)
  {
    w1 := Next(w, SetClass(1, false, false));
  }

  lemma InvRoot(d: Data)
    requires Inv(d)
    ensures RootOk(d.root)
  {
  }
}

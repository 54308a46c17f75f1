/** Tagged command queueing: block/blk-tag.c. */
module TagMap {
  import opened Lists

  type Id = nat

  /** A slot of tag_index: NULL or a request. */
  datatype Slot = Free | Held(id: Id)

  /** struct blk_queue_tag */
  datatype Map = Map(index: seq<Slot>, bits: seq<bool>, maxDepth: nat, realMaxDepth: nat)

  /** A queue with its map; `busy` is tag_busy_list, `tag` the tag field of the requests that carry
      REQ_QUEUED, `queue` the requests that wait for the driver. */
  datatype State = State(m: Map, busy: seq<Id>, tag: map<Id, nat>, queue: seq<Id>)

  // ----- integrity -----

  predicate Shaped(m: Map) { m.maxDepth <= m.realMaxDepth == |m.bits| == |m.index| }

  /** A bit is set exactly when its slot holds a request. */
  ghost predicate BitsTrue(m: Map) {
    |m.bits| == |m.index| && forall t :: 0 <= t < |m.bits| ==> (m.bits[t] <==> m.index[t] != Free)
  }

  /** The slot of a request's tag holds it, and a slot holds only a request with its tag. */
  ghost predicate TagsTrue(s: State) {
    && (forall x :: x in s.tag ==> s.tag[x] < |s.m.index| && s.m.index[s.tag[x]] == Held(x))
    && forall t :: 0 <= t < |s.m.index| && s.m.index[t] != Free ==>
      s.m.index[t].id in s.tag && s.tag[s.m.index[t].id] == t
  }

  ghost predicate Listed(s: State) {
    && NoDup(s.busy) && NoDup(s.queue)
    && (forall x :: x in s.busy <==> x in s.tag)
    && forall x :: x in s.queue ==> x !in s.tag
  }

  ghost predicate Integral(s: State) { Shaped(s.m) && BitsTrue(s.m) && TagsTrue(s) && Listed(s) }

  // ----- the operations -----

  /** find_next_zero_bit */
  function NextZero(bits: seq<bool>, size: nat, offset: nat): (t: nat)
    requires size <= |bits|
    ensures t < size ==> t >= offset && !bits[t]
    ensures t <= size || t == offset
    ensures forall i :: offset <= i < t && i < size ==> bits[i]
    decreases size - offset
  {
    if offset >= size || !bits[offset] then offset else NextZero(bits, size, offset + 1)
  }

  /** A quarter of the tags is kept for sync requests. */
  function Offset(maxDepth: nat, sync: bool): nat { if sync then 0 else maxDepth / 4 }

  function Chosen(m: Map, sync: bool): nat
    requires m.maxDepth <= |m.bits|
  {
    NextZero(m.bits, m.maxDepth, Offset(m.maxDepth, sync))
  }

  predicate Refuses(m: Map, sync: bool)
    requires m.maxDepth <= |m.bits|
  {
    Chosen(m, sync) >= m.maxDepth
  }

  /** blk_queue_start_tag; the request must not carry a tag already, and it leaves the queue. */
  function Started(s: State, x: Id, sync: bool): (r: State)
    requires Integral(s) && x in s.queue
    ensures Integral(r)
  {
    if Refuses(s.m, sync) then s
    else
      MarkedIntegral(s, Chosen(s.m, sync), x);
      Marked(s, Chosen(s.m, sync), x)
  }

  /** Tag `t` is given to request `x` of the queue. */
  function Marked(s: State, t: nat, x: Id): State
    requires t < |s.m.bits| == |s.m.index| && x in s.queue
  {
    State(s.m.(bits := s.m.bits[t := true], index := s.m.index[t := Held(x)]),
          [x] + s.busy, s.tag[x := t], Remove(s.queue, x))
  }

  lemma MarkedIntegral(s: State, t: nat, x: Id)
    requires Integral(s) && t < |s.m.bits| && !s.m.bits[t] && x in s.queue
    ensures Integral(Marked(s, t, x))
  {
    hide BitsTrue, TagsTrue, Listed, Remove;
    MarkedLists(s, t, x);
    MarkedTags(s, t, x);
  }

  lemma MarkedTags(s: State, t: nat, x: Id)
    requires Shaped(s.m) && BitsTrue(s.m) && TagsTrue(s) && x in s.queue && x !in s.tag
    requires t < |s.m.bits| && !s.m.bits[t]
    ensures Shaped(Marked(s, t, x).m) && BitsTrue(Marked(s, t, x).m) && TagsTrue(Marked(s, t, x))
  {
    hide Remove;
  }

  lemma MarkedLists(s: State, t: nat, x: Id)
    requires Listed(s) && t < |s.m.bits| == |s.m.index| && x in s.queue
    ensures x !in s.tag && Listed(Marked(s, t, x))
  {
    RemoveFacts(s.queue, x);
    hide Remove;
  }

  /** blk_queue_end_tag; its guards against tags beyond the map, missing requests and clear bits
      never act while the map is integral. */
  function Ended(s: State, x: Id): (r: State)
    requires Integral(s) && x in s.tag
    ensures Integral(r) && x !in r.tag && x !in r.queue
  {
    RemoveFacts(s.busy, x);
    var t := s.tag[x];
    State(s.m.(index := s.m.index[t := Free], bits := s.m.bits[t := false]),
          Remove(s.busy, x), s.tag - {x}, s.queue)
  }

  /** blk_requeue_request of a tagged request, outside an ordered sequence. */
  function Requeued(s: State, x: Id): (r: State)
    requires Integral(s) && x in s.tag
    ensures Integral(r)
  {
    var e := Ended(s, x);
    e.(queue := [x] + e.queue)
  }

  /** init_tag_map: never more tags than twice the requests that the queue has. */
  function Capacity(depth: nat, nrRequests: nat): nat {
    if depth > nrRequests * 2 then nrRequests * 2 else depth
  }

  // ----- copying the old map -----

  /** What memcpy did: stayed inside the destination, or wrote at `at`, beyond its end. */
  datatype Copy<T> = Within(dst: seq<T>) | Beyond(at: nat)

  /** Entries `i` to `n` of `src`, one by one. */
  function Memcpy<T>(dst: seq<T>, src: seq<T>, n: nat, i: nat): (r: Copy<T>)
    requires n <= |src|
    ensures r.Within? ==> |r.dst| == |dst|
    decreases n - i
  {
    if i >= n then Within(dst)
    else if i >= |dst| then Beyond(i)
    else Memcpy(dst[i := src[i]], src, n, i + 1)
  }

  lemma {:induction false} MemcpyExact<T>(dst: seq<T>, src: seq<T>, n: nat, i: nat)
    requires i <= n <= |src| && i <= |dst|
    ensures Memcpy(dst, src, n, i) ==
      if n <= |dst| then Within(dst[..i] + src[i..n] + dst[n..]) else Beyond(|dst|)
    decreases n - i
  {
    if i == n {
      assert dst[..i] + src[i..n] + dst[n..] == dst;
    } else if i < |dst| {
      var next := dst[i := src[i]];
      MemcpyExact(next, src, n, i + 1);
      if n <= |dst| {
        assert next[..i + 1] + src[i + 1..n] + next[n..] == dst[..i] + src[i..n] + dst[n..];
      }
    }
  }

  const BITS_PER_LONG: nat := 64

  /** The bits of the words that hold a map of `depth` tags. */
  function WordBits(depth: nat): nat { (depth + BITS_PER_LONG - 1) / BITS_PER_LONG * BITS_PER_LONG }

  lemma WordBitsGrow(a: nat, b: nat)
    requires a <= b
    ensures a <= WordBits(a) <= WordBits(b)
  {
  }

  function Unset(n: nat): seq<bool> { seq(n, _ => false) }

  function AllFree(n: nat): seq<Slot> { seq(n, _ => Free) }

  /** The words of a map; the bits behind the last tag are never set. */
  function Words(bits: seq<bool>): (w: seq<bool>)
    ensures |w| == WordBits(|bits|)
  {
    WordBitsGrow(|bits|, |bits|);
    bits + Unset(WordBits(|bits|) - |bits|)
  }

  datatype Resize = Resized(m: Map) | SharedMap | Overrun(at: nat)

  /** blk_queue_resize_tags: the slots and the words of the old map are copied into new arrays. */
  function ResizedTo(m: Map, depth: nat, nrRequests: nat, refcnt: nat): Resize
    requires m.realMaxDepth == |m.bits| == |m.index|
  {
    if depth <= m.realMaxDepth then Resized(m.(maxDepth := depth))
    else if refcnt != 1 then SharedMap
    else
      var n := Capacity(depth, nrRequests);
      WordBitsGrow(n, n);
      match Memcpy(AllFree(n), m.index, m.realMaxDepth, 0)
      case Beyond(at) => Overrun(at)
      case Within(index) =>
        match Memcpy(Unset(WordBits(n)), Words(m.bits), WordBits(m.realMaxDepth), 0)
        case Beyond(at) => Overrun(at)
        case Within(words) => Resized(Map(index, words[..n], n, n))
  }

  /** Both copies stay inside the new arrays unless the clamp cut those below the old depth; then the
      slots run over first. */
  lemma ResizedIs(m: Map, depth: nat, nrRequests: nat, refcnt: nat)
    requires m.realMaxDepth == |m.bits| == |m.index|
    ensures
      var n := Capacity(depth, nrRequests);
      ResizedTo(m, depth, nrRequests, refcnt) ==
        if depth <= m.realMaxDepth then Resized(m.(maxDepth := depth))
        else if refcnt != 1 then SharedMap
        else if n < m.realMaxDepth then Overrun(n)
        else Resized(Map(m.index + AllFree(n - m.realMaxDepth), m.bits + Unset(n - m.realMaxDepth), n, n))
  {
    var n, d := Capacity(depth, nrRequests), m.realMaxDepth;
    MemcpyExact(AllFree(n), m.index, d, 0);
    if n >= d {
      WordBitsGrow(d, n);
      WordBitsGrow(n, n);
      MemcpyExact(Unset(WordBits(n)), Words(m.bits), WordBits(d), 0);
      hide WordBits;
      var words := Words(m.bits)[0..WordBits(d)] + Unset(WordBits(n))[WordBits(d)..];
      assert words[..n] == m.bits + Unset(n - d);
      assert m.index[0..d] + AllFree(n)[d..] == m.index + AllFree(n - d);
      assert Unset(WordBits(n))[..0] + Words(m.bits)[0..WordBits(d)] + Unset(WordBits(n))[WordBits(d)..] == words;
      assert AllFree(n)[..0] + m.index[0..d] + AllFree(n)[d..] == m.index + AllFree(n - d);
    }
  }

  function Empty(depth: nat): Map { Map(AllFree(depth), Unset(depth), depth, depth) }

  lemma ResizeKeeps(s: State, depth: nat, nrRequests: nat, refcnt: nat)
    requires Integral(s) && ResizedTo(s.m, depth, nrRequests, refcnt).Resized?
    ensures Integral(s.(m := ResizedTo(s.m, depth, nrRequests, refcnt).m))
  {
    hide ResizedTo;
    ResizedIs(s.m, depth, nrRequests, refcnt);
  }

  /** No two requests share a tag. */
  lemma TagsDistinct(s: State, x: Id, y: Id)
    requires Integral(s) && x in s.tag && y in s.tag && x != y
    ensures s.tag[x] != s.tag[y]
  {
  }

  ghost predicate Taken(s: State, t: nat) { exists x :: x in s.tag && s.tag[x] == t }

  /** A sync request is refused exactly when every tag that may be given out is taken; others are
      already refused when only the reserved quarter is left. */
  lemma RefusedExactly(s: State, sync: bool)
    requires Integral(s)
    ensures
      Refuses(s.m, sync) <==>
      forall t :: (if sync then 0 else s.m.maxDepth / 4) <= t < s.m.maxDepth ==> Taken(s, t)
  {
    var m := s.m;
    if Refuses(m, sync) {
      forall t | Offset(m.maxDepth, sync) <= t < m.maxDepth ensures Taken(s, t) {
        assert m.bits[t];
        assert m.index[t].id in s.tag;
      }
    } else {
      var t := Chosen(m, sync);
      assert !m.bits[t];
      assert !Taken(s, t);
    }
  }

  /** A request that is not refused gets the least free tag; but if it is not sync, none of the reserved quarter. */
  lemma StartsLeast(s: State, x: Id, sync: bool)
    requires Integral(s) && x in s.queue && !Refuses(s.m, sync)
    ensures
      var r := Started(s, x, sync);
      var first := if sync then 0 else s.m.maxDepth / 4;
      && x in r.tag && first <= r.tag[x] < s.m.maxDepth && !Taken(s, r.tag[x])
      && (forall t :: first <= t < r.tag[x] ==> Taken(s, t))
      && r.tag == s.tag[x := r.tag[x]] && r.queue == Remove(s.queue, x)
  {
    var t := Chosen(s.m, sync);
    assert !s.m.bits[t];
    forall i | Offset(s.m.maxDepth, sync) <= i < t ensures Taken(s, i) {
      assert s.m.bits[i];
      assert s.m.index[i].id in s.tag;
    }
  }

  // ----- resizing -----

  /** The copies write beyond the new arrays exactly when an unshared map is to grow and the queue's
      limit cuts the new map below the old one; the first write outside is at the new depth. */
  lemma OverrunsExactly(m: Map, depth: nat, nrRequests: nat, refcnt: nat)
    requires Shaped(m)
    ensures ResizedTo(m, depth, nrRequests, refcnt).Overrun? <==>
      refcnt == 1 && depth > m.realMaxDepth > nrRequests * 2
    ensures ResizedTo(m, depth, nrRequests, refcnt).Overrun? ==>
      ResizedTo(m, depth, nrRequests, refcnt).at == nrRequests * 2
  {
    hide ResizedTo;
    ResizedIs(m, depth, nrRequests, refcnt);
  }

  /** It happens: a map of 32 tags, which a queue of 16 requests admits, is to grow by one after the
      number of requests was lowered to 4; a request lives at a tag that is still inside. */
  lemma OverrunReached()
    ensures Capacity(32, 16) == 32
    ensures
      var steps := [Arrive(7), Start(7, true)];
      && Runs(Init(32), steps) && 7 in Run(Init(32), steps).tag
      && ResizedTo(Run(Init(32), steps).m, 33, 4, 1) == Overrun(8)
  {
    hide Integral, ResizedTo, Started, Refuses, Chosen, TagsTrue, BitsTrue, Ended;
    var s1 := State(Empty(32), [], map[], [7]);
    var steps := [Arrive(7), Start(7, true)];
    assert [] + [7] == [7] && Apply(Init(32), Arrive(7)) == s1;
    assert steps[1..] == [Start(7, true)] && steps[1..][1..] == [];
    FirstTag(s1);
    var s2 := Started(s1, 7, true);
    assert Runs(s1, steps[1..]) && Run(s1, steps[1..]) == s2;
    OverrunsExactly(s2.m, 33, 4, 1);
  }

  lemma FirstTag(s: State)
    requires s == State(Empty(32), [], map[], [7])
    ensures Integral(s)
    ensures Started(s, 7, true).m.realMaxDepth == 32 && 7 in Started(s, 7, true).tag && Shaped(Started(s, 7, true).m)
  {
    assert !s.m.bits[0];
  }

  /** A resize that is carried out keeps every live tag, and lets every tag below the new depth, as
      far as the queue's limit goes, be given out. */
  lemma ResizeKeepsTags(s: State, depth: nat, nrRequests: nat, refcnt: nat)
    requires Integral(s) && ResizedTo(s.m, depth, nrRequests, refcnt).Resized?
    ensures
      var n := ResizedTo(s.m, depth, nrRequests, refcnt).m;
      && n.maxDepth == (if depth <= s.m.realMaxDepth then depth else Capacity(depth, nrRequests))
      && n.realMaxDepth >= s.m.realMaxDepth
      && forall x :: x in s.tag ==> s.tag[x] < |n.index| && n.index[s.tag[x]] == Held(x) && n.bits[s.tag[x]]
  {
    hide ResizedTo;
    ResizedIs(s.m, depth, nrRequests, refcnt);
  }

  // ----- invalidation -----

  /** blk_queue_invalidate_tags: the busy list from its head, the newest request first. */
  function Invalidated(s: State): (r: State)
    requires Integral(s)
    ensures Integral(r)
    decreases |s.busy|
  {
    if s.busy == [] then s
    else
      assert s.busy[0] in s.tag;
      RemoveFacts(s.busy, s.busy[0]);
      Invalidated(Requeued(s, s.busy[0]))
  }

  function Reverse<T>(l: seq<T>): seq<T> { if l == [] then [] else Reverse(l[1..]) + [l[0]] }

  /** Every tag is free again, and the requests stand at the front of the queue in the order in
      which they were started. */
  lemma {:induction false} InvalidateReturns(s: State)
    requires Integral(s)
    ensures
      var r := Invalidated(s);
      && r.queue == Reverse(s.busy) + s.queue && r.busy == [] && r.tag == map[]
      && (forall t :: 0 <= t < |r.m.bits| ==> !r.m.bits[t] && r.m.index[t] == Free)
      && r.m.maxDepth == s.m.maxDepth && r.m.realMaxDepth == s.m.realMaxDepth
    decreases |s.busy|
  {
    hide *;
    InvalidatedStep(s);
    if s.busy == [] {
      NoneBusy(s);
      assert Reverse(s.busy) + s.queue == s.queue;
    } else {
      RequeueHead(s);
      var t := Requeued(s, s.busy[0]);
      InvalidateReturns(t);
      ReverseStep(s.busy, s.queue);
    }
  }

  lemma InvalidatedStep(s: State)
    requires Integral(s)
    ensures s.busy == [] ==> Invalidated(s) == s && Reverse(s.busy) == []
    ensures s.busy != [] ==>
      s.busy[0] in s.tag && Invalidated(s) == Invalidated(Requeued(s, s.busy[0]))
  {
    hide Requeued;
    if s.busy != [] {
      assert s.busy[0] in s.tag;
    }
  }

  lemma ReverseStep(l: seq<Id>, r: seq<Id>)
    requires l != []
    ensures Reverse(l) + r == Reverse(l[1..]) + ([l[0]] + r)
  {
  }

  lemma NoneBusy(s: State)
    requires Integral(s) && s.busy == []
    ensures s.tag == map[]
    ensures forall t :: 0 <= t < |s.m.bits| ==> !s.m.bits[t] && s.m.index[t] == Free
  {
    assert forall x :: x in s.tag ==> x in s.busy;
    assert s.tag.Keys == {};
  }

  lemma RequeueHead(s: State)
    requires Integral(s) && s.busy != []
    ensures s.busy[0] in s.tag
    ensures
      var t := Requeued(s, s.busy[0]);
      && t.busy == s.busy[1..] && t.queue == [s.busy[0]] + s.queue
      && t.m.maxDepth == s.m.maxDepth && t.m.realMaxDepth == s.m.realMaxDepth
  {
    assert s.busy[0] in s.tag;
    DropHead(s.busy);
  }

  lemma DropHead(l: seq<Id>)
    requires l != []
    ensures Remove(l, l[0]) == l[1..]
  {
    assert l[..0] + l[1..] == l[1..];
  }

  /** Start the first `n` requests of the queue, each as the driver finds it at the head. */
  predicate Starts(s: State, sync: seq<bool>)
    requires Integral(s)
    decreases |sync|
  {
    sync == [] ||
    (s.queue != [] && !Refuses(s.m, sync[0]) && Starts(Started(s, s.queue[0], sync[0]), sync[1..]))
  }

  function AfterStarts(s: State, sync: seq<bool>): (r: State)
    requires Integral(s) && Starts(s, sync)
    ensures Integral(r)
    decreases |sync|
  {
    if sync == [] then s else AfterStarts(Started(s, s.queue[0], sync[0]), sync[1..])
  }

  lemma {:induction false} StartsStack(s: State, sync: seq<bool>)
    requires Integral(s) && Starts(s, sync)
    ensures
      var r := AfterStarts(s, sync);
      Reverse(r.busy) + r.queue == Reverse(s.busy) + s.queue
    decreases |sync|
  {
    if sync != [] {
      StartHead(s, sync[0]);
      var t := Started(s, s.queue[0], sync[0]);
      StartsStack(t, sync[1..]);
      hide Integral, Reverse, Started, Refuses;
      ReverseStep(t.busy, t.queue);
      assert t.busy[1..] == s.busy;
      assert s.queue == [s.queue[0]] + s.queue[1..];
    }
  }

  lemma StartHead(s: State, sync: bool)
    requires Integral(s) && s.queue != [] && !Refuses(s.m, sync)
    ensures
      var t := Started(s, s.queue[0], sync);
      t.busy == [s.queue[0]] + s.busy && t.queue == s.queue[1..]
  {
    DropHead(s.queue);
  }

  /** Invalidation undoes any number of starts: the queue is as it was. */
  lemma InvalidateUndoesStarts(s: State, sync: seq<bool>)
    requires Integral(s) && s.busy == [] && Starts(s, sync)
    ensures Invalidated(AfterStarts(s, sync)).queue == s.queue
  {
    StartsStack(s, sync);
    InvalidateReturns(AfterStarts(s, sync));
    assert Reverse(s.busy) + s.queue == s.queue;
  }

  // ----- runs -----

  datatype Step =
    | Arrive(id: Id)
    | Start(id: Id, sync: bool)
    | End(id: Id)
    | SetDepth(depth: nat, nrRequests: nat, refcnt: nat)
    | Invalidate

  predicate Enabled(s: State, e: Step)
    requires Shaped(s.m)
  {
    match e
    case Arrive(x) => x !in s.queue && x !in s.tag
    case Start(x, _) => x in s.queue && x !in s.tag
    case End(x) => x in s.tag
    case SetDepth(depth, nrRequests, refcnt) => !ResizedTo(s.m, depth, nrRequests, refcnt).Overrun?
    case Invalidate => true
  }

  function Apply(s: State, e: Step): (r: State)
    requires Integral(s) && Enabled(s, e)
    ensures Integral(r)
  {
    match e
    case Arrive(x) => s.(queue := s.queue + [x])
    case Start(x, sync) => Started(s, x, sync)
    case End(x) => Ended(s, x)
    case SetDepth(depth, nrRequests, refcnt) =>
      var r := ResizedTo(s.m, depth, nrRequests, refcnt);
      if r.Resized? then ResizeKeeps(s, depth, nrRequests, refcnt); s.(m := r.m) else s
    case Invalidate => Invalidated(s)
  }

  ghost predicate Runs(s: State, steps: seq<Step>)
    requires Integral(s)
    decreases |steps|
  {
    steps == [] || (Enabled(s, steps[0]) && Runs(Apply(s, steps[0]), steps[1..]))
  }

  function Run(s: State, steps: seq<Step>): (r: State)
    requires Integral(s) && Runs(s, steps)
    ensures Integral(r)
    decreases |steps|
  {
    if steps == [] then s else Run(Apply(s, steps[0]), steps[1..])
  }

  /** A map of `depth` tags and nothing queued.  For a queue, init_tag_map has clamped the depth to
      its capacity; a map made by blk_init_tags is not clamped. */
  function Init(depth: nat): (r: State)
    ensures Integral(r)
  {
    State(Empty(depth), [], map[], [])
  }

  /** Over any run, as long as no growth overruns: tags are distinct, bits and slots agree, and a
      tagged request is on the busy list and nowhere else. */
  lemma AlwaysIntegral(depth: nat, steps: seq<Step>)
    requires Runs(Init(depth), steps)
    ensures
      var s := Run(Init(depth), steps);
      && (forall x, y :: x in s.tag && y in s.tag && x != y ==> s.tag[x] != s.tag[y])
      && (forall t :: 0 <= t < |s.m.bits| ==>
            (s.m.bits[t] <==> s.m.index[t] != Free && s.m.index[t].id in s.tag && s.tag[s.m.index[t].id] == t))
      && (forall x :: x in s.tag <==> x in s.busy) && (forall x :: x in s.tag ==> x !in s.queue)
  {
    var s := Run(Init(depth), steps);
    assert Integral(s);
    forall x, y | x in s.tag && y in s.tag && x != y ensures s.tag[x] != s.tag[y] {
      TagsDistinct(s, x, y);
    }
  }
}

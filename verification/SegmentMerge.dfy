/** The segments of a request in memory, counted and mapped. */
module SegmentMerge {
  // The two walks of block/blk-merge.c, counting and mapping, go over the memory pieces of a request and
  // greedily coalesce neighbours.  Sizes are unbounded here.

  import opened Arithmetic
  import opened Lists

  type Positive = n: nat | n > 0 witness 1

  /** struct bio_vec: a piece of memory, by page frame number, offset and length. */
  datatype Bvec = Bvec(pfn: nat, offset: nat, len: nat)

  /** The limits of a queue that matter for segments.  `window` is seg_boundary_mask + 1, a power
      of two: a segment may not cross a multiple of it. */
  datatype Queue = Queue(cluster: bool, maxSegment: nat, window: Positive, bouncePfn: nat,
                         maxPhys: nat, maxHw: nat)

  const PAGE_SIZE := 4096

  /** bvec_to_phys */
  function Phys(b: Bvec): nat { b.pfn * PAGE_SIZE + b.offset }

  /** BIOVEC_PHYS_MERGEABLE and BIOVEC_SEG_BOUNDARY */
  predicate Joinable(q: Queue, a: Bvec, b: Bvec) {
    && Phys(a) + a.len == Phys(b)
    && Phys(a) / q.window == (Phys(b) + b.len - 1) / q.window
  }

  predicate High(q: Queue, b: Bvec) { b.pfn > q.bouncePfn }

  function Sum(g: seq<Bvec>): nat { if g == [] then 0 else g[0].len + Sum(g[1..]) }

  // ----- what a segment may be -----

  /** A legal segment: one piece, or neighbours that join pairwise and together fit. */
  predicate Legal(q: Queue, g: seq<Bvec>) {
    && g != []
    && (|g| > 1 ==> q.cluster && Sum(g) <= q.maxSegment)
    && forall i :: 0 <= i < |g| - 1 ==> Joinable(q, g[i], g[i + 1])
  }

  /** `p` cuts `l` into legal segments. */
  ghost predicate Partition(q: Queue, l: seq<Bvec>, p: seq<seq<Bvec>>) {
    Flatten(p) == l && forall i :: 0 <= i < |p| ==> Legal(q, p[i])
  }

  // ----- the two greedy walks -----

  /** Whether the walk lets piece `b`, next after `prev`, join the segment of size `size` that
      begins with `first`.  The count kept in the request (`strict`) never lets a high page join
      or be joined. */
  predicate Joins(q: Queue, strict: bool, first: Bvec, prev: Bvec, b: Bvec, size: nat) {
    && !(strict && (High(q, b) || High(q, first)))
    && q.cluster
    && size + b.len <= q.maxSegment
    && Joinable(q, prev, b)
  }

  /** Where the segment that begins `l` and already has `i` pieces ends. */
  function Extend(q: Queue, strict: bool, l: seq<Bvec>, i: nat, size: nat): (k: nat)
    requires 1 <= i <= |l|
    ensures i <= k <= |l|
    decreases |l| - i
  {
    if i < |l| && Joins(q, strict, l[0], l[i - 1], l[i], size) then Extend(q, strict, l, i + 1, size + l[i].len) else i
  }

  /** The segments a walk makes of `l`. */
  function Walk(q: Queue, strict: bool, l: seq<Bvec>): (p: seq<seq<Bvec>>)
    ensures p == [] <==> l == []
    decreases |l|
  {
    if l == [] then []
    else var k := Extend(q, strict, l, 1, l[0].len); [l[..k]] + Walk(q, strict, l[k..])
  }

  /** The main loop of blk_rq_map_sg, and blk_recalc_rq_segments. */
  function MapParts(q: Queue, l: seq<Bvec>): seq<seq<Bvec>> { Walk(q, false, l) }

  function CountParts(q: Queue, l: seq<Bvec>): seq<seq<Bvec>> { Walk(q, true, l) }

  // ----- a walk makes legal segments -----

  lemma SumAppend(a: seq<Bvec>, b: seq<Bvec>)
    ensures Sum(a + b) == Sum(a) + Sum(b)
  {
    if a == [] {
      assert a + b == b;
    } else {
      assert (a + b)[1..] == a[1..] + b;
      SumAppend(a[1..], b);
    }
  }

  lemma SumNext(l: seq<Bvec>, i: nat)
    requires i < |l|
    ensures Sum(l[..i + 1]) == Sum(l[..i]) + l[i].len
  {
    assert l[..i + 1] == l[..i] + [l[i]];
    SumAppend(l[..i], [l[i]]);
  }

  lemma {:induction false} ExtendLegal(q: Queue, strict: bool, l: seq<Bvec>, i: nat, size: nat)
    requires 1 <= i <= |l| && size == Sum(l[..i]) && Legal(q, l[..i])
    ensures Legal(q, l[..Extend(q, strict, l, i, size)])
    decreases |l| - i
  {
    if i < |l| && Joins(q, strict, l[0], l[i - 1], l[i], size) {
      SumNext(l, i);
      var g := l[..i + 1];
      forall j | 0 <= j < |g| - 1 ensures Joinable(q, g[j], g[j + 1]) {
        assert j < i - 1 ==> Joinable(q, l[..i][j], l[..i][j + 1]);
      }
      ExtendLegal(q, strict, l, i + 1, size + l[i].len);
    }
  }

  lemma SumOne(b: Bvec)
    ensures Sum([b]) == b.len
  {
    assert [b][1..] == [];
  }

  lemma {:induction false} WalkLegal(q: Queue, strict: bool, l: seq<Bvec>)
    ensures Partition(q, l, Walk(q, strict, l))
    decreases |l|
  {
    if l != [] {
      var k := Extend(q, strict, l, 1, l[0].len);
      SumOne(l[0]);
      assert l[..1] == [l[0]];
      ExtendLegal(q, strict, l, 1, l[0].len);
      WalkLegal(q, strict, l[k..]);
      assert Walk(q, strict, l)[1..] == Walk(q, strict, l[k..]);
      assert l == l[..k] + l[k..];
    }
  }

  // ----- the loops -----

  /** One scatterlist entry: where it starts and how long it is. */
  datatype Entry = Entry(pfn: nat, offset: nat, length: nat)

  /** `n` bytes of memory from address `a`. */
  function Range(a: nat, n: nat): seq<nat> { seq(n, i => a + i) }

  /** The memory that pieces of a request occupy, byte by byte. */
  function Memory(l: seq<Bvec>): (m: seq<nat>)
    ensures |m| == Sum(l)
  {
    if l == [] then [] else Range(l[0].pfn * 4096 + l[0].offset, l[0].len) + Memory(l[1..])
  }

  /** The memory that the device is given. */
  function Given(sg: seq<Entry>): seq<nat> {
    if sg == [] then [] else Range(sg[0].pfn * 4096 + sg[0].offset, sg[0].length) + Given(sg[1..])
  }

  function EntryOf(g: seq<Bvec>): Entry
    requires g != []
  {
    Entry(g[0].pfn, g[0].offset, Sum(g))
  }

  /** What holds in either loop before piece `i`: the segments closed so far are `closed`, and the
      open one starts at `start` and has size `size`. */
  ghost predicate Open(q: Queue, strict: bool, l: seq<Bvec>, closed: seq<seq<Bvec>>, start: nat, i: nat, size: nat) {
    && start < i <= |l|
    && Walk(q, strict, l) == closed + Walk(q, strict, l[start..])
    && Extend(q, strict, l[start..], 1, l[start].len) == Extend(q, strict, l[start..], i - start, size)
    && size == Sum(l[start..i])
  }

  lemma OpenFirst(q: Queue, strict: bool, l: seq<Bvec>)
    requires l != []
    ensures Open(q, strict, l, [], 0, 1, l[0].len)
  {
    assert l[0..] == l && l[0..1] == [l[0]];
    SumOne(l[0]);
  }

  lemma OpenJoin(q: Queue, strict: bool, l: seq<Bvec>, closed: seq<seq<Bvec>>, start: nat, i: nat, size: nat)
    requires Open(q, strict, l, closed, start, i, size) && i < |l|
    requires Joins(q, strict, l[start], l[i - 1], l[i], size)
    ensures Open(q, strict, l, closed, start, i + 1, size + l[i].len)
  {
    hide Joins, Sum, Walk;
    var t := l[start..];
    assert t[0] == l[start] && t[i - start - 1] == l[i - 1] && t[i - start] == l[i];
    assert t[..i - start] == l[start..i] && t[..i - start + 1] == l[start..i + 1];
    SumNext(t, i - start);
  }

  lemma OpenNew(q: Queue, strict: bool, l: seq<Bvec>, closed: seq<seq<Bvec>>, start: nat, i: nat, size: nat)
    requires Open(q, strict, l, closed, start, i, size) && i < |l|
    requires !Joins(q, strict, l[start], l[i - 1], l[i], size)
    ensures Open(q, strict, l, closed + [l[start..i]], i, i + 1, l[i].len)
    ensures l[start..i] != [] && EntryOf(l[start..i]) == Entry(l[start].pfn, l[start].offset, size)
  {
    hide Joins, Sum;
    var t := l[start..];
    assert t[0] == l[start] && t[i - start - 1] == l[i - 1] && t[i - start] == l[i];
    Subparts(l, start, i);
    SumOne(l[i]);
  }

  lemma Subparts(l: seq<Bvec>, start: nat, i: nat)
    requires start < i < |l|
    ensures l[start..][..i - start] == l[start..i] && l[start..][i - start..] == l[i..]
    ensures l[i..i + 1] == [l[i]]
  {
  }

  lemma OpenLast(q: Queue, strict: bool, l: seq<Bvec>, closed: seq<seq<Bvec>>, start: nat, size: nat)
    requires Open(q, strict, l, closed, start, |l|, size)
    ensures Walk(q, strict, l) == closed + [l[start..]]
    ensures l[start..] != [] && EntryOf(l[start..]) == Entry(l[start].pfn, l[start].offset, size)
  {
    assert l[start..|l|] == l[start..];
    assert l[start..][|l| - start..] == [];
    assert l[start..][..|l| - start] == l[start..];
  }

  /** The entries describe the segments, one each, in order. */
  ghost predicate Mapped(sg: seq<Entry>, p: seq<seq<Bvec>>) {
    |sg| == |p| && forall j :: 0 <= j < |p| ==> p[j] != [] && sg[j] == EntryOf(p[j])
  }

  lemma MappedNone(q: Queue)
    ensures Mapped([], MapParts(q, [])) && Mapped([], [])
  {
  }

  lemma MappedNext(sg: seq<Entry>, p: seq<seq<Bvec>>, g: seq<Bvec>)
    requires |sg| == |p| + 1 && Mapped(sg[..|p|], p) && g != [] && sg[|p|] == EntryOf(g)
    ensures Mapped(sg, p + [g])
  {
    forall j | 0 <= j < |p| ensures p[j] != [] && sg[j] == EntryOf(p[j]) {
      assert sg[..|p|][j] == sg[j];
    }
  }

  // ----- in terms of memory -----

  lemma RangeSplit(a: nat, m: nat, n: nat)
    ensures Range(a, m) + Range(a + m, n) == Range(a, m + n)
  {
  }

  lemma LegalTail(q: Queue, g: seq<Bvec>)
    requires Legal(q, g) && |g| > 1
    ensures Legal(q, g[1..]) && Joinable(q, g[0], g[1])
  {
    forall i | 0 <= i < |g[1..]| - 1 ensures Joinable(q, g[1..][i], g[1..][i + 1]) {
      assert Joinable(q, g[i + 1], g[i + 2]);
    }
  }

  lemma MemoryStep(g: seq<Bvec>)
    requires g != []
    ensures Memory(g) == Range(Phys(g[0]), g[0].len) + Memory(g[1..]) && Sum(g) == g[0].len + Sum(g[1..])
  {
    hide Range;
    SamePlace(g[0]);
  }

  lemma SamePlace(b: Bvec)
    ensures Phys(b) == b.pfn * 4096 + b.offset
  {
  }

  /** A legal segment is one stretch of memory. */
  lemma {:induction false} LegalIsRange(q: Queue, g: seq<Bvec>)
    requires Legal(q, g)
    ensures Memory(g) == Range(Phys(g[0]), Sum(g))
    decreases |g|
  {
    hide Legal, Memory, Sum, Range;
    LegalSome(q, g);
    MemoryStep(g);
    if |g| > 1 {
      LegalTail(q, g);
      LegalIsRange(q, g[1..]);
      RangeSplit(Phys(g[0]), g[0].len, Sum(g[1..]));
    } else {
      NoMemory(g[1..]);
    }
  }

  lemma LegalSome(q: Queue, g: seq<Bvec>)
    requires Legal(q, g)
    ensures g != []
  {
  }

  lemma NoMemory(g: seq<Bvec>)
    requires g == []
    ensures Memory(g) == [] && Sum(g) == 0
  {
  }

  /** Addresses between two in one window are in it. */
  lemma Between(a: nat, b: nat, c: nat, w: Positive)
    requires a <= b <= c && a / w == c / w
    ensures b / w == a / w
  {
    DivMonotone(a, b, w);
    DivMonotone(b, c, w);
  }

  /** The pieces are one stretch of memory, not longer than the queue allows, between two multiples of the
      window. */
  predicate OneStretch(q: Queue, g: seq<Bvec>) {
    && g != []
    && (|g| > 1 ==>
          var a, n := g[0].pfn * 4096 + g[0].offset, Sum(g);
          q.cluster && n <= q.maxSegment && Memory(g) == Range(a, n) && a / q.window == (a + n - 1) / q.window)
  }

  predicate Solid(g: seq<Bvec>) { forall i :: 0 <= i < |g| ==> g[i].len > 0 }

  /** What is legal, said of memory. */
  lemma {:induction false} LegalExactly(q: Queue, g: seq<Bvec>)
    requires Solid(g)
    ensures Legal(q, g) <==> OneStretch(q, g)
  {
    hide Memory, Joinable, Range, Sum;
    if Legal(q, g) && |g| > 1 {
      LegalIsRange(q, g);
      LegalInWindow(q, g);
    }
    if OneStretch(q, g) && |g| > 1 {
      forall i | 0 <= i < |g| - 1 ensures Joinable(q, g[i], g[i + 1]) {
        StretchJoins(q, g, i);
      }
    }
  }

  lemma {:induction false} LegalInWindow(q: Queue, g: seq<Bvec>)
    requires Legal(q, g) && |g| > 1 && Solid(g)
    ensures Sum(g) > 0 && Phys(g[0]) / q.window == (Phys(g[0]) + Sum(g) - 1) / q.window
    decreases |g|
  {
    hide Legal, Sum, Memory;
    MemoryStep(g);
    LegalTail(q, g);
    MemoryStep(g[1..]);
    var t := g[1..];
    Between(Phys(g[0]), Phys(t[0]), Phys(t[0]) + t[0].len - 1, q.window);
    if |t| > 1 {
      LegalInWindow(q, t);
    } else {
      NoMemory(t[1..]);
    }
  }

  lemma {:induction false} StretchJoins(q: Queue, g: seq<Bvec>, i: nat)
    requires OneStretch(q, g) && Solid(g) && i + 1 < |g|
    ensures Joinable(q, g[i], g[i + 1])
    decreases i
  {
    hide Memory, Sum, Range;
    var t, a := g[1..], Phys(g[0]);
    StretchTail(q, g);
    MemoryStep(g);
    MemoryStep(t);
    if i == 0 {
      Between(a, a + g[0].len + t[0].len - 1, a + Sum(g) - 1, q.window);
    } else {
      StretchJoins(q, t, i - 1);
    }
  }

  lemma StretchTail(q: Queue, g: seq<Bvec>)
    requires OneStretch(q, g) && Solid(g) && |g| > 1
    ensures OneStretch(q, g[1..]) && Phys(g[1]) == Phys(g[0]) + g[0].len
  {
    hide Memory, Sum, Range;
    var t, a := g[1..], Phys(g[0]);
    MemoryStep(g);
    MemoryStep(t);
    RangeSplit(a, g[0].len, Sum(t));
    SameRest(Range(a, g[0].len), Memory(t), Range(a + g[0].len, Sum(t)));
    RangeFirst(Phys(t[0]), t[0].len, Memory(t[1..]), a + g[0].len, Sum(t));
    Between(a, a + g[0].len, a + Sum(g) - 1, q.window);
  }

  lemma SameRest(a: seq<nat>, b: seq<nat>, c: seq<nat>)
    requires a + b == a + c
    ensures b == c
  {
    assert b == (a + b)[|a|..] && c == (a + c)[|a|..];
  }

  lemma RangeFirst(a: nat, n: nat, rest: seq<nat>, b: nat, m: nat)
    requires n > 0 && Range(a, n) + rest == Range(b, m)
    ensures a == b
  {
    assert (Range(a, n) + rest)[0] == a;
    assert |Range(b, m)| == m;
  }

  /** The entries give the device the memory of the pieces, all of it, in order, and nothing else. */
  lemma {:induction false} MapCovers(q: Queue, l: seq<Bvec>, p: seq<seq<Bvec>>, sg: seq<Entry>)
    requires Partition(q, l, p) && Mapped(sg, p)
    ensures Given(sg) == Memory(l)
    decreases |p|
  {
    hide Memory, Legal, Sum, Range;
    if p == [] {
      NoMemory(l);
    } else {
      LegalIsRange(q, p[0]);
      assert forall i :: 0 <= i < |p[1..]| ==> p[1..][i] == p[i + 1] && sg[1..][i] == sg[i + 1];
      MapCovers(q, Flatten(p[1..]), p[1..], sg[1..]);
      MemoryAppend(p[0], Flatten(p[1..]));
    }
  }

  lemma {:induction false} MemoryAppend(a: seq<Bvec>, b: seq<Bvec>)
    ensures Memory(a + b) == Memory(a) + Memory(b)
    decreases |a|
  {
    hide Range, Sum;
    if a == [] {
      assert a + b == b;
    } else {
      assert (a + b)[1..] == a[1..] + b;
      MemoryAppend(a[1..], b);
    }
  }

  /** The main loop of blk_rq_map_sg. */
  method MapSg(q: Queue, l: seq<Bvec>) returns (sg: seq<Entry>)
    ensures Mapped(sg, MapParts(q, l)) && Given(sg) == Memory(l)
  {
    hide Open, Walk, Extend, Joinable, High, Mapped, EntryOf, Partition, Memory, Given;
    WalkLegal(q, false, l);
    sg := [];
    ghost var closed: seq<seq<Bvec>>, start: nat := [], 0;
    MappedNone(q);
    for i := 0 to |l|
      invariant |sg| == if i == 0 then 0 else |closed| + 1
      invariant i == 0 ==> closed == [] && start == 0
      invariant i > 0 ==> start < |l| && Open(q, false, l, closed, start, i, sg[|closed|].length)
      invariant i > 0 ==> sg[|closed|] == Entry(l[start].pfn, l[start].offset, sg[|closed|].length)
      invariant i > 0 ==> Mapped(sg[..|closed|], closed)
    {
      var last := |sg| - 1;
      if i > 0 && q.cluster && sg[last].length + l[i].len <= q.maxSegment && Joinable(q, l[i - 1], l[i]) {
        OpenJoin(q, false, l, closed, start, i, sg[last].length);
        sg := sg[last := sg[last].(length := sg[last].length + l[i].len)];
      } else {
        if i > 0 {
          OpenInside(q, false, l, closed, start, i, sg[last].length);
          OpenNew(q, false, l, closed, start, i, sg[last].length);
          MappedNext(sg, closed, l[start..i]);
          closed, start := closed + [l[start..i]], i;
        } else {
          OpenFirst(q, false, l);
        }
        sg := sg + [Entry(l[i].pfn, l[i].offset, l[i].len)];
        assert sg[..last + 1] == sg[..|sg| - 1];
      }
    }
    if l != [] {
      OpenLast(q, false, l, closed, start, sg[|sg| - 1].length);
      MappedNext(sg, closed, l[start..]);
    }
    MapCovers(q, l, MapParts(q, l), sg);
  }

  lemma StrictJoins(q: Queue, first: Bvec, prev: Bvec, b: Bvec, size: nat)
    ensures Joins(q, true, first, prev, b, size) <==>
      !(High(q, b) || High(q, first)) && q.cluster && size + b.len <= q.maxSegment && Joinable(q, prev, b)
  {
  }

  /** The loop of blk_recalc_rq_segments. */
  method CountSegments(q: Queue, l: seq<Bvec>) returns (n: nat)
    ensures n == |CountParts(q, l)|
  {
    hide *;
    n := 0;
    var size: nat, prv: nat := 0, 0;
    var highprv := true;
    CountStarts(q, l);
    for i := 0 to |l|
      invariant Counting(q, l, i, size, n, highprv) && (i > 0 ==> prv == i - 1)
    {
      var high := High(q, l[i]);
      CountsOn(q, l, i, size, n, highprv);
      assert i > 0 ==> l[prv] == l[i - 1];
      var joins := i > 0 && LetsJoin(q, high, highprv, size, l[prv], l[i]);
      if joins {
        size := size + l[i].len;
      } else {
        n := n + 1;
        size := l[i].len;
        highprv := high;
      }
      prv := i;
    }
    CountEnds(q, l, size, n, highprv);
  }

  /** The test in the loop; at the first piece `highprv` is set, so that it is not met. */
  predicate LetsJoin(q: Queue, high: bool, highprv: bool, size: nat, prv: Bvec, b: Bvec) {
    !(high || highprv) && q.cluster && size + b.len <= q.maxSegment && Joinable(q, prv, b)
  }

  /** The walk has come to piece `i`, in segment number `n`, whose first piece is a high page or not. */
  ghost predicate Counting(q: Queue, l: seq<Bvec>, i: nat, size: nat, n: nat, highprv: bool) {
    if i == 0 then n == 0 && highprv
    else
      exists closed: seq<seq<Bvec>>, start: nat ::
        Open(q, true, l, closed, start, i, size) && start < |l| && n == |closed| + 1 && highprv == High(q, l[start])
  }

  lemma CountStarts(q: Queue, l: seq<Bvec>)
    ensures Counting(q, l, 0, 0, 0, true)
  {
  }

  lemma CountsOn(q: Queue, l: seq<Bvec>, i: nat, size: nat, n: nat, highprv: bool)
    requires i < |l| && Counting(q, l, i, size, n, highprv)
    ensures
      var high := High(q, l[i]);
      if i > 0 && LetsJoin(q, high, highprv, size, l[i - 1], l[i])
      then Counting(q, l, i + 1, size + l[i].len, n, highprv)
      else Counting(q, l, i + 1, l[i].len, n + 1, high)
  {
    hide Open, High, Joins, Joinable;
    if i == 0 {
      OpenFirst(q, true, l);
    } else {
      var closed: seq<seq<Bvec>>, start: nat :| Open(q, true, l, closed, start, i, size)
        && start < |l| && n == |closed| + 1 && highprv == High(q, l[start]);
      OpenInside(q, true, l, closed, start, i, size);
      StrictJoins(q, l[start], l[i - 1], l[i], size);
      if Joins(q, true, l[start], l[i - 1], l[i], size) {
        OpenJoin(q, true, l, closed, start, i, size);
      } else {
        OpenNew(q, true, l, closed, start, i, size);
      }
    }
  }

  lemma OpenInside(q: Queue, strict: bool, l: seq<Bvec>, closed: seq<seq<Bvec>>, start: nat, i: nat, size: nat)
    requires Open(q, strict, l, closed, start, i, size)
    ensures start < i <= |l|
  {
  }

  lemma CountEnds(q: Queue, l: seq<Bvec>, size: nat, n: nat, highprv: bool)
    requires Counting(q, l, |l|, size, n, highprv)
    ensures n == |CountParts(q, l)|
  {
    if l != [] {
      hide Open, High, Walk;
      var closed: seq<seq<Bvec>>, start: nat :| Open(q, true, l, closed, start, |l|, size)
        && start < |l| && n == |closed| + 1 && highprv == High(q, l[start]);
      OpenLast(q, true, l, closed, start, size);
    }
  }

  // ----- the lenient walk is optimal -----

  /** A prefix of a legal segment is legal, and so is a suffix. */
  lemma LegalPart(q: Queue, g: seq<Bvec>, i: nat, j: nat)
    requires Legal(q, g) && i < j <= |g|
    ensures Legal(q, g[i..j])
  {
    var h := g[i..j];
    assert g == g[..i] + (h + g[j..]);
    SumAppend(g[..i], h + g[j..]);
    SumAppend(h, g[j..]);
    forall m | 0 <= m < |h| - 1 ensures Joinable(q, h[m], h[m + 1]) {
      assert Joinable(q, g[m + i], g[m + i + 1]);
    }
  }

  /** Under the strict rule, segments of more than one piece have no high page. */
  predicate Low(q: Queue, strict: bool, g: seq<Bvec>) {
    strict && |g| > 1 ==> forall i :: 0 <= i < |g| ==> g[i].pfn <= q.bouncePfn
  }

  predicate AllLow(q: Queue, strict: bool, p: seq<seq<Bvec>>) {
    forall i :: 0 <= i < |p| ==> Low(q, strict, p[i])
  }

  /** The walk goes at least as far as any legal first segment of its kind. */
  lemma {:induction false} ExtendFar(q: Queue, strict: bool, l: seq<Bvec>, i: nat, size: nat, k: nat)
    requires 1 <= i <= k <= |l| && size == Sum(l[..i]) && Legal(q, l[..k]) && Low(q, strict, l[..k])
    ensures k <= Extend(q, strict, l, i, size)
    decreases k - i
  {
    if i < k {
      hide High;
      LegalPart(q, l[..k], 0, i + 1);
      assert l[..k][0..i + 1] == l[..i + 1];
      SumNext(l, i);
      assert Joinable(q, l[..k][i - 1], l[..k][i]);
      assert strict ==> !High(q, l[..k][i]) && !High(q, l[..k][0]);
      assert Joins(q, strict, l[0], l[i - 1], l[i], size);
      ExtendFar(q, strict, l, i + 1, size + l[i].len, k);
    }
  }

  /** Dropping the first piece of a partition. */
  function Trim(p: seq<seq<Bvec>>): seq<seq<Bvec>>
    requires p != [] && p[0] != []
  {
    if |p[0]| == 1 then p[1..] else [p[0][1..]] + p[1..]
  }

  lemma TrimPartition(q: Queue, l: seq<Bvec>, p: seq<seq<Bvec>>)
    requires Partition(q, l, p) && l != []
    ensures p != [] && p[0] != []
    ensures Partition(q, l[1..], Trim(p)) && |Trim(p)| <= |p|
  {
    hide Legal, Trim, Flatten;
    FirstPart(q, l, p);
    var g, rest := p[0], Flatten(p[1..]);
    TrimIs(p);
    assert (g + rest)[1..] == g[1..] + rest;
    if |g| > 1 {
      LegalPart(q, g, 1, |g|);
      assert g[1..|g|] == g[1..];
    } else {
      assert g[1..] + rest == rest;
    }
  }

  lemma FirstPart(q: Queue, l: seq<Bvec>, p: seq<seq<Bvec>>)
    requires Partition(q, l, p) && l != []
    ensures p != [] && p[0] != [] && l == p[0] + Flatten(p[1..])
  {
    assert Legal(q, p[0]);
  }

  lemma TrimIs(p: seq<seq<Bvec>>)
    requires p != [] && p[0] != []
    ensures
      if |p[0]| == 1 then Trim(p) == p[1..]
      else |Trim(p)| == |p| && Flatten(Trim(p)) == p[0][1..] + Flatten(p[1..])
           && forall i :: 0 <= i < |p| ==> Trim(p)[i] == if i == 0 then p[0][1..] else p[i]
  {
    if |p[0]| > 1 {
      assert Trim(p)[1..] == p[1..];
    }
  }

  lemma TrimLow(q: Queue, strict: bool, p: seq<seq<Bvec>>)
    requires p != [] && p[0] != [] && AllLow(q, strict, p)
    ensures AllLow(q, strict, Trim(p))
  {
    hide High;
    assert |p[0]| > 1 ==> Low(q, strict, p[0][1..]);
  }

  /** From a partition of `l`, one of its tail with no more segments. */
  lemma {:induction false} TailPartition(q: Queue, strict: bool, l: seq<Bvec>, p: seq<seq<Bvec>>, n: nat)
    returns (r: seq<seq<Bvec>>)
    requires Partition(q, l, p) && AllLow(q, strict, p) && n <= |l|
    ensures Partition(q, l[n..], r) && AllLow(q, strict, r) && |r| <= |p|
    decreases n
  {
    hide Partition, AllLow, Trim;
    if n == 0 {
      r := p;
      assert l[0..] == l;
    } else {
      TrimPartition(q, l, p);
      TrimLow(q, strict, p);
      r := TailPartition(q, strict, l[1..], Trim(p), n - 1);
      assert l[1..][n - 1..] == l[n..];
    }
  }

  lemma WalkStep(q: Queue, strict: bool, l: seq<Bvec>)
    requires l != []
    ensures |Walk(q, strict, l)| == 1 + |Walk(q, strict, l[Extend(q, strict, l, 1, l[0].len)..])|
  {
  }

  lemma FirstOf(q: Queue, strict: bool, l: seq<Bvec>, p: seq<seq<Bvec>>)
    requires Partition(q, l, p) && AllLow(q, strict, p) && l != []
    ensures p != [] && 1 <= |p[0]| <= |l|
    ensures var i := |p[0]|; l[..i] == p[0] && Legal(q, p[0]) && Low(q, strict, p[0])
    ensures Partition(q, l[|p[0]|..], p[1..]) && AllLow(q, strict, p[1..])
  {
    hide Low;
    FirstPart(q, l, p);
    assert Legal(q, p[0]) && Low(q, strict, p[0]);
    hide Legal;
    assert l[|p[0]|..] == Flatten(p[1..]);
  }

  /** No legal partition of its kind has fewer segments than a walk makes. */
  lemma {:induction false} WalkOptimal(q: Queue, strict: bool, l: seq<Bvec>, p: seq<seq<Bvec>>)
    requires Partition(q, l, p) && AllLow(q, strict, p)
    ensures |Walk(q, strict, l)| <= |p|
    decreases |l|
  {
    if l != [] {
      hide Legal, Low, Partition, AllLow, Extend, Walk, Flatten, Sum;
      FirstOf(q, strict, l, p);
      var i := |p[0]|;
      SumOne(l[0]);
      assert l[..1] == [l[0]];
      ExtendFar(q, strict, l, 1, l[0].len, i);
      WalkStep(q, strict, l);
      var k := Extend(q, strict, l, 1, l[0].len);
      var r := TailPartition(q, strict, l[i..], p[1..], k - i);
      assert l[i..][k - i..] == l[k..];
      WalkOptimal(q, strict, l[k..], r);
    }
  }

  /** No legal partition has fewer segments than the scatterlist. */
  lemma MapOptimal(q: Queue, l: seq<Bvec>, p: seq<seq<Bvec>>)
    requires Partition(q, l, p)
    ensures |MapParts(q, l)| <= |p|
  {
    WalkOptimal(q, false, l, p);
  }

  lemma {:induction false} ExtendLow(q: Queue, l: seq<Bvec>, i: nat, size: nat)
    requires 1 <= i <= |l| && Low(q, true, l[..i])
    ensures Low(q, true, l[..Extend(q, true, l, i, size)])
    decreases |l| - i
  {
    hide Joinable;
    if i < |l| && Joins(q, true, l[0], l[i - 1], l[i], size) {
      var g := l[..i + 1];
      forall j | 0 <= j <= i ensures !High(q, g[j]) {
        assert j < i && i > 1 ==> !High(q, l[..i][j]);
      }
      ExtendLow(q, l, i + 1, size + l[i].len);
    }
  }

  lemma {:induction false} WalkLow(q: Queue, l: seq<Bvec>)
    ensures AllLow(q, true, CountParts(q, l))
    decreases |l|
  {
    if l != [] {
      var k := Extend(q, true, l, 1, l[0].len);
      ExtendLow(q, l, 1, l[0].len);
      hide Low;
      WalkLow(q, l[k..]);
      assert CountParts(q, l)[1..] == CountParts(q, l[k..]);
    }
  }

  /** The count is that of a partition in which high pages stand alone, and no such partition has fewer
      segments. */
  lemma CountExact(q: Queue, l: seq<Bvec>, p: seq<seq<Bvec>>)
    ensures Partition(q, l, CountParts(q, l)) && AllLow(q, true, CountParts(q, l))
    ensures Partition(q, l, p) && AllLow(q, true, p) ==> |CountParts(q, l)| <= |p|
  {
    hide Partition, AllLow;
    WalkLegal(q, true, l);
    WalkLow(q, l);
    if Partition(q, l, p) && AllLow(q, true, p) {
      WalkOptimal(q, true, l, p);
    }
  }

  /** The scatterlist never has more entries than the count kept in the request. */
  lemma MapWithinCount(q: Queue, l: seq<Bvec>)
    ensures |MapParts(q, l)| <= |CountParts(q, l)|
  {
    WalkLegal(q, true, l);
    MapOptimal(q, l, CountParts(q, l));
  }
}

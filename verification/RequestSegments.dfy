/** The segment count of a request. */
module RequestSegments {
  // Bios and requests are merged into a request, which keeps a running count (block/blk-merge.c); a
  // scatterlist of that size is always long enough.

  import opened Lists
  import opened SegmentMerge

  /** A request that carries data: its memory pieces, nr_phys_segments, the bi_seg_front_size of its
      first bio and the bi_seg_back_size of its last. */
  datatype Request = Request(pieces: seq<Bvec>, nr: nat, front: nat, back: nat)

  function Max(a: nat, b: nat): nat { if a > b then a else b }

  function FirstSize(p: seq<seq<Bvec>>): nat
    requires p != []
  {
    Sum(p[0])
  }

  function LastSize(p: seq<seq<Bvec>>): nat
    requires p != []
  {
    Sum(p[|p| - 1])
  }

  /** blk_recalc_rq_segments: the sizes that are there already (`f` and `b`) only grow. */
  function Counted(q: Queue, l: seq<Bvec>, f: nat, b: nat): Request
    requires l != []
  {
    var p := CountParts(q, l);
    Request(l, |p|, Max(f, FirstSize(p)), Max(b, LastSize(p)))
  }

  predicate TooMany(q: Queue, n: nat) { n > q.maxHw || n > q.maxPhys }

  /** ll_back_merge_fn, down to ll_new_hw_segment */
  function BackMerged(q: Queue, r: Request, bio: Request): Request {
    if TooMany(q, r.nr + bio.nr) then r
    else Request(r.pieces + bio.pieces, r.nr + bio.nr, r.front, bio.back)
  }

  /** ll_front_merge_fn */
  function FrontMerged(q: Queue, r: Request, bio: Request): Request {
    if TooMany(q, r.nr + bio.nr) then r
    else Request(bio.pieces + r.pieces, r.nr + bio.nr, bio.front, r.back)
  }

  /** blk_phys_contig_segment */
  predicate Contiguous(q: Queue, r: Request, next: Request)
    requires r.pieces != [] && next.pieces != []
  {
    && q.cluster
    && r.back + next.front <= q.maxSegment
    && Joinable(q, r.pieces[|r.pieces| - 1], next.pieces[0])
  }

  /** ll_merge_requests_fn raises the sizes at the outer ends of both requests before it decides. */
  function Tried(q: Queue, r: Request, next: Request): (t: (Request, Request))
    requires r.pieces != [] && next.pieces != []
  {
    var joins, size := Contiguous(q, r, next), r.back + next.front;
    (if joins && r.nr == 1 then r.(front := size) else r, if joins && next.nr == 1 then next.(back := size) else next)
  }

  /** One segment fewer when the last of the one and the first of the other become one. */
  function Total(q: Queue, r: Request, next: Request): nat
    requires r.pieces != [] && next.pieces != []
  {
    if Contiguous(q, r, next) && r.nr + next.nr > 0 then r.nr + next.nr - 1 else r.nr + next.nr
  }

  /** ll_merge_requests_fn: what `r` is afterwards, merged or refused. */
  function Merged(q: Queue, r: Request, next: Request): Request
    requires r.pieces != [] && next.pieces != []
  {
    var (r1, next1) := Tried(q, r, next);
    if TooMany(q, Total(q, r, next)) then r1
    else Request(r.pieces + next.pieces, Total(q, r, next), r1.front, next1.back)
  }

  /** What `next` is after it was refused; if it was not, it is gone, and nothing happens to it here. */
  function Refused(q: Queue, r: Request, next: Request): Request
    requires r.pieces != [] && next.pieces != []
  {
    if TooMany(q, Total(q, r, next)) then Tried(q, r, next).1 else next
  }

  // ----- histories -----

  /** How a request came about.  The numbers are the sizes that a bio carries from before. */
  datatype History =
    | New(bio: seq<Bvec>, f: nat, b: nat)
    | Back(h: History, bio: seq<Bvec>, f: nat, b: nat)
    | Front(h: History, bio: seq<Bvec>, f: nat, b: nat)
    | Complete(h: History, rest: seq<Bvec>, f: nat, b: nat)
    | Merge(h: History, next: History)
    | Refuse(h: History, next: History)

  predicate Valid(h: History) {
    match h
    case New(bio, _, _) => bio != []
    case Back(g, bio, _, _) => Valid(g) && bio != []
    case Front(g, bio, _, _) => Valid(g) && bio != []
    case Complete(g, rest, _, _) => Valid(g) && rest != []
    case Merge(g, next) => Valid(g) && Valid(next)
    case Refuse(g, next) => Valid(g) && Valid(next)
  }

  /** The request; a partial completion leaves some pieces and counts them again. */
  function Eval(q: Queue, h: History): (r: Request)
    requires Valid(h)
    ensures r.pieces != []
  {
    match h
    case New(bio, f, b) => Counted(q, bio, f, b)
    case Back(g, bio, f, b) => BackMerged(q, Eval(q, g), Counted(q, bio, f, b))
    case Front(g, bio, f, b) => FrontMerged(q, Eval(q, g), Counted(q, bio, f, b))
    case Complete(g, rest, f, b) => Counted(q, rest, f, b)
    case Merge(g, next) => Merged(q, Eval(q, g), Eval(q, next))
    case Refuse(g, next) => Refused(q, Eval(q, g), Eval(q, next))
  }

  // ----- what the count stands for -----

  /** `p` cuts the request into as many legal segments as are counted, and the sizes kept at the
      ends are not less than those of its first and last. */
  ghost predicate Witness(q: Queue, r: Request, p: seq<seq<Bvec>>) {
    && Partition(q, r.pieces, p) && |p| == r.nr && p != []
    && FirstSize(p) <= r.front && LastSize(p) <= r.back
  }

  /** A recount has a witness too.  It never lowers a recorded size, and raises it to that of the segment at most. */
  lemma CountedWitness(q: Queue, l: seq<Bvec>, f: nat, b: nat)
    requires l != []
    ensures Witness(q, Counted(q, l, f, b), CountParts(q, l))
    ensures
      var p, r := CountParts(q, l), Counted(q, l, f, b);
      && r.front >= f && (r.front > f ==> r.front == Sum(p[0]))
      && r.back >= b && (r.back > b ==> r.back == Sum(p[|p| - 1]))
  {
    hide Walk, Partition, Sum;
    WalkLegal(q, true, l);
  }

  lemma PartitionAppend(q: Queue, l: seq<Bvec>, p: seq<seq<Bvec>>, m: seq<Bvec>, r: seq<seq<Bvec>>)
    requires Partition(q, l, p) && Partition(q, m, r)
    ensures Partition(q, l + m, p + r)
  {
    hide Legal;
    FlattenAppend(p, r);
  }

  lemma AppendWitness(q: Queue, r: Request, p: seq<seq<Bvec>>, s: Request, t: seq<seq<Bvec>>)
    requires Witness(q, r, p) && Witness(q, s, t)
    ensures Witness(q, Request(r.pieces + s.pieces, r.nr + s.nr, r.front, s.back), p + t)
  {
    hide Partition, Sum;
    PartitionAppend(q, r.pieces, p, s.pieces, t);
  }

  /** The last segment of `p` and the first of `t` as one. */
  function Glued(p: seq<seq<Bvec>>, t: seq<seq<Bvec>>): seq<seq<Bvec>>
    requires p != [] && t != []
  {
    p[..|p| - 1] + [p[|p| - 1] + t[0]] + t[1..]
  }

  lemma GluedFlat(p: seq<seq<Bvec>>, t: seq<seq<Bvec>>)
    requires p != [] && t != []
    ensures Flatten(Glued(p, t)) == Flatten(p) + Flatten(t)
  {
    var a, x := p[..|p| - 1], p[|p| - 1];
    assert p == a + [x];
    FlattenAppend(a, [x]);
    FlattenAppend(a, [x + t[0]] + t[1..]);
    assert Glued(p, t) == a + ([x + t[0]] + t[1..]);
    assert Flatten([x]) == x + Flatten([]);
    assert ([x + t[0]] + t[1..])[1..] == t[1..];
    assert Flatten(a) + (x + t[0] + Flatten(t[1..])) == Flatten(a) + x + (t[0] + Flatten(t[1..]));
  }

  lemma GlueLegal(q: Queue, a: seq<Bvec>, b: seq<Bvec>)
    requires Legal(q, a) && Legal(q, b) && q.cluster && Sum(a) + Sum(b) <= q.maxSegment
    requires Joinable(q, a[|a| - 1], b[0])
    ensures Legal(q, a + b) && Sum(a + b) == Sum(a) + Sum(b)
  {
    SumAppend(a, b);
    var g := a + b;
    forall i | 0 <= i < |g| - 1 ensures Joinable(q, g[i], g[i + 1]) {
      if i < |a| - 1 {
        assert Joinable(q, a[i], a[i + 1]);
      } else if i >= |a| {
        assert Joinable(q, b[i - |a|], b[i - |a| + 1]);
      }
    }
  }

  /** The end pieces of a partition are those of the whole. */
  lemma Ends(q: Queue, l: seq<Bvec>, p: seq<seq<Bvec>>)
    requires Partition(q, l, p) && p != []
    ensures l != [] && p[0] != [] && p[|p| - 1] != []
    ensures l[0] == p[0][0] && l[|l| - 1] == p[|p| - 1][|p[|p| - 1]| - 1]
  {
    var a, x := p[..|p| - 1], p[|p| - 1];
    assert Legal(q, p[0]) && Legal(q, x);
    assert p == a + [x];
    FlattenAppend(a, [x]);
    assert Flatten([x]) == x + Flatten([]);
    assert l == p[0] + Flatten(p[1..]);
    assert l == Flatten(a) + x;
  }

  lemma GlueWitness(q: Queue, r: Request, p: seq<seq<Bvec>>, s: Request, t: seq<seq<Bvec>>)
    requires Witness(q, r, p) && Witness(q, s, t) && r.pieces != [] && s.pieces != [] && Contiguous(q, r, s)
    ensures
      var size := r.back + s.front;
      Witness(q, Request(r.pieces + s.pieces, r.nr + s.nr - 1,
                         if r.nr == 1 then size else r.front, if s.nr == 1 then size else s.back),
              Glued(p, t))
  {
    hide Legal, Joinable, Sum, Flatten;
    Ends(q, r.pieces, p);
    Ends(q, s.pieces, t);
    GluedFlat(p, t);
    assert Legal(q, p[|p| - 1]) && Legal(q, t[0]);
    GlueLegal(q, p[|p| - 1], t[0]);
    var g := Glued(p, t);
    forall i | 0 <= i < |g| ensures Legal(q, g[i]) {
      assert i < |p| - 1 ==> g[i] == p[i];
      assert i >= |p| ==> g[i] == t[i - |p| + 1];
    }
  }

  /** When the recorded sizes are those of the end segments, two requests count as contiguous if and only if the two
      segments may be one. */
  lemma ContiguousExactly(q: Queue, r: Request, p: seq<seq<Bvec>>, s: Request, t: seq<seq<Bvec>>)
    requires Witness(q, r, p) && Witness(q, s, t) && r.pieces != [] && s.pieces != []
    requires LastSize(p) == r.back && FirstSize(t) == s.front
    ensures Contiguous(q, r, s) <==> Legal(q, p[|p| - 1] + t[0])
  {
    hide Joinable, Sum, Flatten;
    Ends(q, r.pieces, p);
    Ends(q, s.pieces, t);
    var a, b := p[|p| - 1], t[0];
    assert Legal(q, a) && Legal(q, b);
    if Contiguous(q, r, s) {
      GlueLegal(q, a, b);
    }
    if Legal(q, a + b) {
      SumAppend(a, b);
      assert Joinable(q, (a + b)[|a| - 1], (a + b)[|a|]);
    }
  }

  /** Every bio that came in alone, and every rest of a partial completion, is within the limits of the queue. */
  predicate Fits(q: Queue, h: History)
    requires Valid(h)
  {
    match h
    case New(bio, f, b) => |CountParts(q, bio)| <= q.maxHw && |CountParts(q, bio)| <= q.maxPhys
    case Back(g, bio, _, _) => Fits(q, g)
    case Front(g, bio, _, _) => Fits(q, g)
    case Complete(g, rest, f, b) => |CountParts(q, rest)| <= q.maxHw && |CountParts(q, rest)| <= q.maxPhys
    case Merge(g, next) => Fits(q, g) && Fits(q, next)
    case Refuse(g, next) => Fits(q, g) && Fits(q, next)
  }

  /** No merge takes a request over the limits on segments. */
  lemma {:induction false} WithinLimits(q: Queue, h: History)
    requires Valid(h) && Fits(q, h)
    ensures Eval(q, h).nr <= q.maxHw && Eval(q, h).nr <= q.maxPhys
    decreases h
  {
    hide Contiguous, Total;
    match h
    case New(_, _, _) =>
    case Back(g, _, _, _) => WithinLimits(q, g);
    case Front(g, _, _, _) => WithinLimits(q, g);
    case Complete(_, _, _, _) =>
    case Merge(g, next) => WithinLimits(q, g); WithinLimits(q, next);
    case Refuse(g, next) => WithinLimits(q, g); WithinLimits(q, next);
  }

  /** And none is refused that would stay within them. */
  lemma MergedWhenRoom(q: Queue, r: Request, s: Request)
    requires r.pieces != [] && s.pieces != [] && r.nr + s.nr <= q.maxHw && r.nr + s.nr <= q.maxPhys
    ensures BackMerged(q, r, s).pieces == r.pieces + s.pieces
    ensures FrontMerged(q, r, s).pieces == s.pieces + r.pieces
    ensures Merged(q, r, s).pieces == r.pieces + s.pieces
  {
    hide Contiguous;
  }

  /** The witness survives every merge and every completion. */
  lemma {:induction false} HasWitness(q: Queue, h: History) returns (p: seq<seq<Bvec>>)
    requires Valid(h)
    ensures Witness(q, Eval(q, h), p)
    decreases h
  {
    hide Witness, Contiguous;
    match h
    case New(bio, f, b) =>
      CountedWitness(q, bio, f, b);
      p := CountParts(q, bio);
    case Back(g, bio, f, b) =>
      p := HasWitness(q, g);
      CountedWitness(q, bio, f, b);
      if !TooMany(q, Eval(q, g).nr + Counted(q, bio, f, b).nr) {
        AppendWitness(q, Eval(q, g), p, Counted(q, bio, f, b), CountParts(q, bio));
        p := p + CountParts(q, bio);
      }
    case Front(g, bio, f, b) =>
      p := HasWitness(q, g);
      CountedWitness(q, bio, f, b);
      if !TooMany(q, Eval(q, g).nr + Counted(q, bio, f, b).nr) {
        AppendWitness(q, Counted(q, bio, f, b), CountParts(q, bio), Eval(q, g), p);
        p := CountParts(q, bio) + p;
      }
    case Complete(g, rest, f, b) =>
      CountedWitness(q, rest, f, b);
      p := CountParts(q, rest);
    case Merge(g, next) =>
      var u := HasWitness(q, g);
      var v := HasWitness(q, next);
      p := MergeWitness(q, Eval(q, g), u, Eval(q, next), v);
    case Refuse(g, next) =>
      var u := HasWitness(q, g);
      p := HasWitness(q, next);
      TriedWitness(q, Eval(q, g), u, Eval(q, next), p);
  }

  /** Raising the sizes does no harm: a request of one segment has its whole length at both ends. */
  lemma TriedWitness(q: Queue, r: Request, u: seq<seq<Bvec>>, s: Request, v: seq<seq<Bvec>>)
    requires r.pieces != [] && s.pieces != [] && Witness(q, r, u) && Witness(q, s, v)
    ensures Witness(q, Tried(q, r, s).0, u) && Witness(q, Tried(q, r, s).1, v)
  {
    hide Contiguous, Partition;
  }

  lemma MergeWitness(q: Queue, r: Request, u: seq<seq<Bvec>>, s: Request, v: seq<seq<Bvec>>)
    returns (p: seq<seq<Bvec>>)
    requires r.pieces != [] && s.pieces != [] && Witness(q, r, u) && Witness(q, s, v)
    ensures Witness(q, Merged(q, r, s), p)
  {
    assert r.nr > 0;
    hide Witness, Contiguous;
    if TooMany(q, Total(q, r, s)) {
      TriedWitness(q, r, u, s, v);
      p := u;
    } else if Contiguous(q, r, s) {
      GlueWitness(q, r, u, s, v);
      p := Glued(u, v);
    } else {
      AppendWitness(q, r, u, s, v);
      p := u + v;
    }
  }

  /** However a request has come about, by merges of bios and of whole requests and by partial
      completions, its scatterlist has at most nr_phys_segments entries. */
  lemma ScatterlistFits(q: Queue, h: History)
    requires Valid(h)
    ensures |MapParts(q, Eval(q, h).pieces)| <= Eval(q, h).nr
  {
    var p := HasWitness(q, h);
    MapOptimal(q, Eval(q, h).pieces, p);
  }

  // ----- when the recorded sizes are exact -----

  /** No bio brings sizes from before, and no requests that are found contiguous are refused a merge. */
  predicate Clean(q: Queue, h: History)
    requires Valid(h)
  {
    match h
    case New(_, f, b) => f == 0 == b
    case Back(g, _, f, b) => Clean(q, g) && f == 0 == b
    case Front(g, _, f, b) => Clean(q, g) && f == 0 == b
    case Complete(_, _, f, b) => f == 0 == b
    case Merge(g, next) => Clean(q, g) && Clean(q, next) && !Wronged(q, Eval(q, g), Eval(q, next))
    case Refuse(g, next) => Clean(q, next) && !Wronged(q, Eval(q, g), Eval(q, next))
  }

  predicate Wronged(q: Queue, r: Request, s: Request)
    requires r.pieces != [] && s.pieces != []
  {
    Contiguous(q, r, s) && TooMany(q, Total(q, r, s))
  }

  ghost predicate Exact(q: Queue, r: Request, p: seq<seq<Bvec>>) {
    Witness(q, r, p) && r.front == FirstSize(p) && r.back == LastSize(p)
  }

  /** After such a history the sizes kept at the ends are those of the first and the last segment of a legal
      partition of as many segments as are counted: what is found contiguous later is so. */
  lemma {:induction false} SizesExact(q: Queue, h: History) returns (p: seq<seq<Bvec>>)
    requires Valid(h) && Clean(q, h)
    ensures Exact(q, Eval(q, h), p)
    decreases h
  {
    hide Exact, Wronged, BackMerged, FrontMerged, Merged, Refused, Counted;
    match h
    case New(bio, f, b) =>
      p := CountedExact(q, bio);
    case Back(g, bio, f, b) =>
      p := SizesExact(q, g);
      var t := CountedExact(q, bio);
      var front;
      p, front := JoinedExact(q, Eval(q, g), p, Counted(q, bio, 0, 0), t);
    case Front(g, bio, f, b) =>
      p := SizesExact(q, g);
      var t := CountedExact(q, bio);
      var back;
      back, p := JoinedExact(q, Counted(q, bio, 0, 0), t, Eval(q, g), p);
    case Complete(_, rest, f, b) =>
      p := CountedExact(q, rest);
    case Merge(g, next) =>
      var u := SizesExact(q, g);
      var v := SizesExact(q, next);
      p := MergedExact(q, Eval(q, g), u, Eval(q, next), v);
    case Refuse(g, next) =>
      p := SizesExact(q, next);
      RefusedExact(q, Eval(q, g), Eval(q, next));
  }

  lemma CountedExact(q: Queue, l: seq<Bvec>) returns (p: seq<seq<Bvec>>)
    requires l != []
    ensures Exact(q, Counted(q, l, 0, 0), p)
  {
    p := CountParts(q, l);
    CountedWitness(q, l, 0, 0);
    hide Witness, Walk;
  }

  /** Bios that are merged behind and in front. */
  lemma JoinedExact(q: Queue, r: Request, u: seq<seq<Bvec>>, s: Request, v: seq<seq<Bvec>>)
    returns (back: seq<seq<Bvec>>, front: seq<seq<Bvec>>)
    requires Exact(q, r, u) && Exact(q, s, v)
    ensures Exact(q, BackMerged(q, r, s), back) && Exact(q, FrontMerged(q, s, r), front)
  {
    AppendWitness(q, r, u, s, v);
    hide Partition, Sum;
    back, front := if TooMany(q, r.nr + s.nr) then u else u + v, if TooMany(q, r.nr + s.nr) then v else u + v;
  }

  lemma MergedExact(q: Queue, r: Request, u: seq<seq<Bvec>>, s: Request, v: seq<seq<Bvec>>)
    returns (p: seq<seq<Bvec>>)
    requires r.pieces != [] && s.pieces != [] && Exact(q, r, u) && Exact(q, s, v) && !Wronged(q, r, s)
    ensures Exact(q, Merged(q, r, s), p)
  {
    assert r.nr > 0;
    if Contiguous(q, r, s) {
      GlueWitness(q, r, u, s, v);
      SumAppend(u[|u| - 1], v[0]);
      p := Glued(u, v);
    } else if TooMany(q, Total(q, r, s)) {
      p := u;
    } else {
      AppendWitness(q, r, u, s, v);
      p := u + v;
    }
    hide Partition, Sum, Contiguous;
  }

  lemma RefusedExact(q: Queue, r: Request, s: Request)
    requires r.pieces != [] && s.pieces != [] && !Wronged(q, r, s)
    ensures Refused(q, r, s) == s
  {
    hide Contiguous;
  }

  /** A refused merge of contiguous requests changes neither what they transfer nor their counts; the size at the far
      end of a request of one segment is now that of the segment that was not made. */
  lemma RefusedRaises(q: Queue, r: Request, s: Request)
    requires r.pieces != [] && s.pieces != [] && Wronged(q, r, s)
    ensures
      var size, a, b := r.back + s.front, Merged(q, r, s), Refused(q, r, s);
      && a.pieces == r.pieces && a.nr == r.nr && a.back == r.back
      && b.pieces == s.pieces && b.nr == s.nr && b.front == s.front
      && a.front == (if r.nr == 1 then size else r.front) && b.back == (if s.nr == 1 then size else s.back)
  {
  }
}

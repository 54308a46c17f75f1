/** The tag map of block/blk-tag.c as the arrays and lists that it changes in place: the bits, the
    array of requests by tag, the busy list and the waiting queue.  Each method is tied to its
    step in TagMap; growing replaces both arrays, as the code does. */
module TagQueue {
  import opened Lists
  import opened TagMap

  /** OutOfBounds is not a code of the source: there the copy runs on, beyond the array. */
  datatype Errno = Success | Busy | OutOfBounds(at: nat)

  class Queue {
    var index: array<Slot>
    var bits: array<bool>
    var maxDepth: nat
    var realMaxDepth: nat
    var busy: seq<Id>
    var tag: map<Id, nat>
    var queue: seq<Id>

    ghost function State(): State
      reads this, index, bits
    {
      TagMap.State(Map(index[..], bits[..], maxDepth, realMaxDepth), busy, tag, queue)
    }

    ghost predicate Valid()
      reads this, index, bits
    {
      Integral(State())
    }

    /** find_next_zero_bit */
    method FindNextZero(size: nat, offset: nat) returns (t: nat)
      requires size <= bits.Length
      ensures t == NextZero(bits[..], size, offset)
    {
      t := offset;
      while t < size && bits[t]
        invariant NextZero(bits[..], size, offset) == NextZero(bits[..], size, t)
        decreases size - t
      {
        t := t + 1;
      }
    }

    /** blk_queue_start_tag: nonzero, with nothing changed, when no tag is free. */
    method StartTag(x: Id, sync: bool) returns (refused: bool)
      requires Valid() && x in queue
      modifies this, index, bits
      ensures Valid() && index == old(index) && bits == old(bits)
      ensures State() == Started(old(State()), x, sync) && refused == Refuses(old(State()).m, sync)
    {
      ghost var s := State();
      ChosenFits(s);
      StartedIs(s, x, sync);
      hide *;
      var offset := if sync then 0 else maxDepth / 4;
      var t := FindNextZero(maxDepth, offset);
      refused := t >= maxDepth;
      if !refused {
        Assign(t, x);
      }
    }

    /** The tag is marked taken, recorded, and the request moved to the busy list. */
    method Assign(t: nat, x: Id)
      requires t < bits.Length == index.Length && x in queue
      modifies this, index, bits
      ensures index == old(index) && bits == old(bits)
      ensures State() == Marked(old(State()), t, x)
    {
      hide Remove;
      bits[t] := true;
      tag := tag[x := t];
      index[t] := Held(x);
      queue := Remove(queue, x);
      busy := [x] + busy;
    }

    /** blk_queue_end_tag */
    method EndTag(x: Id)
      requires Valid() && x in tag
      modifies this, index, bits
      ensures Valid() && index == old(index) && bits == old(bits)
      ensures State() == Ended(old(State()), x)
    {
      ghost var s := State();
      EndedIs(s, x);
      hide *;
      var t := tag[x];
      if t >= realMaxDepth {
        return;
      }
      busy := Remove(busy, x);
      tag := tag - {x};
      index[t] := Free;
      if !bits[t] {
        return;
      }
      bits[t] := false;
    }

    /** blk_requeue_request */
    method Requeue(x: Id)
      requires Valid() && x in tag
      modifies this, index, bits
      ensures Valid() && index == old(index) && bits == old(bits)
      ensures State() == Requeued(old(State()), x)
    {
      hide Integral, Ended;
      ghost var r := Requeued(State(), x);
      EndTag(x);
      queue := [x] + queue;
      assert State() == r;
    }

    /** blk_queue_invalidate_tags */
    method InvalidateTags()
      requires Valid()
      modifies this, index, bits
      ensures Valid() && index == old(index) && bits == old(bits)
      ensures State() == Invalidated(old(State()))
    {
      hide Integral, Requeued, Invalidated;
      ghost var s0 := State();
      InvalidatedStep(State());
      while busy != []
        invariant Valid() && index == old(index) && bits == old(bits)
        invariant Invalidated(State()) == Invalidated(s0)
        invariant busy == [] ==> Invalidated(State()) == State()
        decreases |busy|
      {
        RequeueHead(State());
        InvalidatedStep(State());
        Requeue(busy[0]);
        InvalidatedStep(State());
      }
    }

    /** blk_queue_resize_tags; where the new map is cut below the old one, the index at which the copy
        leaves it. */
    method ResizeTags(depth: nat, nrRequests: nat, refcnt: nat) returns (r: Errno)
      requires Valid()
      modifies this
      ensures !r.OutOfBounds? ==> Valid()
      ensures
        var s := old(State());
        var n := ResizedTo(s.m, depth, nrRequests, refcnt);
        if n == SharedMap then r == Busy && State() == s
        else if n.Overrun? then r == OutOfBounds(n.at)
        else r == Success && State() == s.(m := n.m)
    {
      ghost var s := State();
      ResizeFrame(s);
      ResizedIs(s.m, depth, nrRequests, refcnt);
      if ResizedTo(s.m, depth, nrRequests, refcnt).Resized? {
        ResizeKeeps(s, depth, nrRequests, refcnt);
      }
      hide *;
      if depth <= realMaxDepth {
        maxDepth := depth;
        return Success;
      }
      if refcnt != 1 {
        return Busy;
      }
      var n := Capacity(depth, nrRequests);
      var ok := NewMap(n);
      r := if ok then Success else OutOfBounds(n);
    }

    /** init_tag_map and the copies of the old slots and bits. */
    method NewMap(n: nat) returns (ok: bool)
      requires index.Length == bits.Length
      modifies this`index, this`bits, this`maxDepth, this`realMaxDepth
      ensures maxDepth == realMaxDepth == n
      ensures ok <==> old(index.Length) <= n
      ensures ok ==>
        && index[..] == old(index[..]) + AllFree(n - old(index.Length))
        && bits[..] == old(bits[..]) + Unset(n - old(index.Length))
    {
      var oldIndex, oldBits := index, bits;
      index, bits := new Slot[n](_ => Free), new bool[n](_ => false);
      maxDepth, realMaxDepth := n, n;
      ok := CopyInto(oldIndex, index);
      if ok {
        ok := CopyInto(oldBits, bits);
        assert index[..] == oldIndex[..] + AllFree(n - oldIndex.Length);
        assert bits[..] == oldBits[..] + Unset(n - oldBits.Length);
      }
    }
  }

  lemma Spliced<T>(src: seq<T>, was: seq<T>, dst: seq<T>)
    requires |src| <= |dst| == |was|
    requires forall k :: 0 <= k < |dst| ==> dst[k] == if k < |src| then src[k] else was[k]
    ensures dst == src + was[|src|..]
  {
  }

  /** The loop of memcpy: all of `src` goes to the start of `dst`.  It ends where it would leave
      `dst`. */
  method CopyInto<T>(src: array<T>, dst: array<T>) returns (ok: bool)
    requires src != dst
    modifies dst
    ensures ok <==> src.Length <= dst.Length
    ensures ok ==> dst[..] == src[..] + old(dst[src.Length..])
  {
    var i := 0;
    while i < src.Length && i < dst.Length
      invariant i <= src.Length && i <= dst.Length
      invariant forall k :: 0 <= k < i ==> dst[k] == src[k]
      invariant forall k :: i <= k < dst.Length ==> dst[k] == old(dst[k])
    {
      dst[i] := src[i];
      i := i + 1;
    }
    ok := i == src.Length;
    if ok {
      Spliced(src[..], old(dst[..]), dst[..]);
    }
  }

  lemma StartedIs(s: State, x: Id, sync: bool)
    requires Integral(s) && x in s.queue
    ensures
      var t := NextZero(s.m.bits, s.m.maxDepth, if sync then 0 else s.m.maxDepth / 4);
      && (Refuses(s.m, sync) <==> t >= s.m.maxDepth)
      && Started(s, x, sync) == if t >= s.m.maxDepth then s else Marked(s, t, x)
  {
  }

  lemma ChosenFits(s: State)
    requires Integral(s)
    ensures s.m.maxDepth <= |s.m.bits| == |s.m.index|
  {
  }

  lemma EndedIs(s: State, x: Id)
    requires Integral(s) && x in s.tag
    ensures
      var t := s.tag[x];
      && s.m.realMaxDepth == |s.m.bits| == |s.m.index| && t < |s.m.bits| && s.m.bits[t] && x in s.busy
      && Ended(s, x) == TagMap.State(s.m.(index := s.m.index[t := Free], bits := s.m.bits[t := false]),
                                     Remove(s.busy, x), s.tag - {x}, s.queue)
  {
  }

  lemma ResizeFrame(s: State)
    requires Integral(s)
    ensures s.m.realMaxDepth == |s.m.bits| == |s.m.index|
  {
  }
}

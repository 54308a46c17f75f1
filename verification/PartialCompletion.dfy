/** Completing a request in parts, a number of bytes at a time: block/blk-core.c. */
module PartialCompletion {
  import opened Lists

  /** struct bio_vec: a piece of a page. */
  datatype Vec = Vec(page: nat, offset: nat, len: nat)

  /** struct bio: the pieces from bi_idx on, bi_size, and BIO_UPTODATE. */
  datatype Bio = Bio(id: nat, vecs: seq<Vec>, size: nat, uptodate: bool)

  /** A request's chain, and the bios that have been ended, each with its error. */
  datatype Req = Req(bios: seq<Bio>, ended: seq<(nat, int)>)

  const EIO := 5

  // ----- what one completion does -----

  /** What is left of the pieces after `n` bytes. */
  function Drop(vecs: seq<Vec>, n: nat): seq<Vec> {
    if n == 0 || vecs == [] then vecs
    else if vecs[0].len <= n then Drop(vecs[1..], n - vecs[0].len)
    else [Vec(vecs[0].page, vecs[0].offset + n, vecs[0].len - n)] + vecs[1..]
  }

  /** The error that a bio ends with. */
  function Outcome(b: Bio, err: int): int {
    if err != 0 then err else if !b.uptodate then -EIO else 0
  }

  /** Part of a bio is done. */
  function Advanced(b: Bio, n: nat, err: int): Bio
    requires n <= b.size
  {
    Bio(b.id, Drop(b.vecs, n), b.size - n, b.uptodate && err == 0)
  }

  /** `n` bytes of the request are done: whole bios are ended, and the next is advanced. */
  function Completed(r: Req, n: nat, err: int): Req
    decreases |r.bios|
  {
    if r.bios == [] then r
    else
      var b := r.bios[0];
      if n >= b.size then
        var r1 := Req(r.bios[1..], r.ended + [(b.id, Outcome(b, err))]);
        if r1.bios != [] && n == b.size then r1 else Completed(r1, n - b.size, err)
      else if n == 0 then r
      else Req([Advanced(b, n, err)] + r.bios[1..], r.ended)
  }

  // ----- well-formed requests -----

  function Length(vecs: seq<Vec>): nat { if vecs == [] then 0 else vecs[0].len + Length(vecs[1..]) }

  /** The pieces are not empty and add up to the size, which is not zero. */
  predicate Good(b: Bio) {
    && (forall i :: 0 <= i < |b.vecs| ==> b.vecs[i].len > 0)
    && b.size == Length(b.vecs) > 0
  }

  predicate AllGood(bios: seq<Bio>) { forall i :: 0 <= i < |bios| ==> Good(bios[i]) }

  /** The addresses of the bytes that are still to be transferred. */
  function VecBytes(v: Vec): seq<(nat, nat)> { seq(v.len, i => (v.page, v.offset + i)) }

  function Bytes(vecs: seq<Vec>): (r: seq<(nat, nat)>)
    ensures |r| == Length(vecs)
  {
    if vecs == [] then [] else VecBytes(vecs[0]) + Bytes(vecs[1..])
  }

  function Memory(bios: seq<Bio>): seq<(nat, nat)> {
    if bios == [] then [] else Bytes(bios[0].vecs) + Memory(bios[1..])
  }

  lemma CutFirst(vecs: seq<Vec>, n: nat)
    requires vecs != [] && 0 < n < vecs[0].len
    ensures Drop(vecs, n) == [Vec(vecs[0].page, vecs[0].offset + n, vecs[0].len - n)] + vecs[1..]
    ensures Length(Drop(vecs, n)) == Length(vecs) - n && Bytes(Drop(vecs, n)) == Bytes(vecs)[n..]
  {
    var v, b := vecs[0], Bytes(vecs[1..]);
    var w := Vec(v.page, v.offset + n, v.len - n);
    assert ([w] + vecs[1..])[1..] == vecs[1..];
    assert VecBytes(w) == VecBytes(v)[n..];
    hide VecBytes;
    assert (VecBytes(v) + b)[n..] == VecBytes(v)[n..] + b;
  }

  lemma {:induction false} DropFacts(vecs: seq<Vec>, n: nat)
    requires (forall i :: 0 <= i < |vecs| ==> vecs[i].len > 0) && n <= Length(vecs)
    ensures
      var d := Drop(vecs, n);
      && (forall i :: 0 <= i < |d| ==> d[i].len > 0)
      && Length(d) == Length(vecs) - n && Bytes(d) == Bytes(vecs)[n..]
    decreases |vecs|
  {
    if n > 0 && vecs != [] {
      var v := vecs[0];
      var b := Bytes(vecs[1..]);
      assert Bytes(vecs) == VecBytes(v) + b;
      if v.len <= n {
        hide Bytes, VecBytes;
        DropFacts(vecs[1..], n - v.len);
        assert (VecBytes(v) + b)[n..] == b[n - v.len..];
      } else {
        CutFirst(vecs, n);
      }
    } else {
      assert Bytes(vecs)[0..] == Bytes(vecs);
    }
  }

  lemma AdvancedGood(b: Bio, n: nat, err: int)
    requires Good(b) && n < b.size
    ensures Good(Advanced(b, n, err)) && Bytes(Advanced(b, n, err).vecs) == Bytes(b.vecs)[n..]
  {
    DropFacts(b.vecs, n);
  }

  /** Exactly the first `n` bytes are gone, and the request is done when there were no more. */
  lemma {:induction false} BytesLeft(r: Req, n: nat, err: int)
    requires AllGood(r.bios)
    ensures
      var r1 := Completed(r, n, err);
      && AllGood(r1.bios)
      && Memory(r1.bios) == (if n <= |Memory(r.bios)| then Memory(r.bios)[n..] else [])
      && (r1.bios == [] <==> n >= |Memory(r.bios)|)
    decreases |r.bios|
  {
    hide *;
    MemoryEmpty(r.bios);
    CompletedCases(r, n, err);
    if r.bios != [] {
      var b, t := r.bios[0], r.bios[1..];
      MemoryCons(r.bios);
      CutFront(Bytes(b.vecs), Memory(t), n);
      if n >= b.size {
        var r1 := Req(t, r.ended + [(b.id, Outcome(b, err))]);
        MemoryEmpty(t);
        BytesLeft(r1, n - b.size, err);
        assert n == b.size ==> Memory(t)[0..] == Memory(t);
      } else if n > 0 {
        AdvancedGood(b, n, err);
        var bios := [Advanced(b, n, err)] + t;
        ConsGood(Advanced(b, n, err), t);
        MemoryCons(bios);
        assert bios[1..] == t;
      } else {
        assert Memory(r.bios)[0..] == Memory(r.bios);
      }
    }
  }

  lemma CompletedCases(r: Req, n: nat, err: int)
    ensures r.bios == [] ==> Completed(r, n, err) == r
    ensures r.bios != [] ==>
      var b := r.bios[0];
      var r1 := Req(r.bios[1..], r.ended + [(b.id, Outcome(b, err))]);
      Completed(r, n, err) ==
        if n >= b.size then (if r1.bios != [] && n == b.size then r1 else Completed(r1, n - b.size, err))
        else if n == 0 then r
        else Req([Advanced(b, n, err)] + r.bios[1..], r.ended)
  {
  }

  lemma MemoryCons(bios: seq<Bio>)
    requires bios != [] && AllGood(bios)
    ensures Memory(bios) == Bytes(bios[0].vecs) + Memory(bios[1..])
    ensures |Bytes(bios[0].vecs)| == bios[0].size > 0 && Good(bios[0]) && AllGood(bios[1..])
  {
    assert Good(bios[0]);
  }

  lemma ConsGood(b: Bio, t: seq<Bio>)
    requires Good(b) && AllGood(t)
    ensures AllGood([b] + t)
  {
  }

  lemma CutFront(x: seq<(nat, nat)>, y: seq<(nat, nat)>, n: nat)
    ensures |x| <= n <= |x + y| ==> (x + y)[n..] == y[n - |x|..]
    ensures n <= |x| ==> (x + y)[n..] == x[n..] + y
  {
  }

  lemma MemoryEmpty(bios: seq<Bio>)
    requires AllGood(bios)
    ensures bios == [] <==> |Memory(bios)| == 0
  {
    if bios != [] {
      assert Good(bios[0]);
    }
  }

  // ----- completing in parts -----

  lemma {:induction false} DropTwice(vecs: seq<Vec>, a: nat, b: nat)
    requires forall i :: 0 <= i < |vecs| ==> vecs[i].len > 0
    ensures Drop(Drop(vecs, a), b) == Drop(vecs, a + b)
    decreases |vecs|
  {
    if a > 0 && vecs != [] {
      if vecs[0].len <= a {
        DropTwice(vecs[1..], a - vecs[0].len, b);
      } else {
        var w := Vec(vecs[0].page, vecs[0].offset + a, vecs[0].len - a);
        assert ([w] + vecs[1..])[1..] == vecs[1..];
      }
    }
  }

  /** Two completions of one outcome are as good as one of their sum. */
  lemma {:induction false} InParts(r: Req, a: nat, b: nat, err: int)
    requires AllGood(r.bios)
    ensures Completed(Completed(r, a, err), b, err) == Completed(r, a + b, err)
    decreases |r.bios|
  {
    hide Drop, VecBytes, Bytes, Length;
    if r.bios != [] {
      var h, t := r.bios[0], r.bios[1..];
      assert Good(h);
      if a >= h.size {
        var r1 := Req(t, r.ended + [(h.id, Outcome(h, err))]);
        assert t != [] ==> Good(t[0]);
        if a > h.size || t == [] {
          InParts(r1, a - h.size, b, err);
        }
      } else if a > 0 {
        var h1 := Advanced(h, a, err);
        var r1 := Req([h1] + t, r.ended);
        assert r1.bios[1..] == t;
        DropTwice(h.vecs, a, b);
      }
    }
  }

  // ----- who is told of an error -----

  function Ids(bios: seq<Bio>): (r: seq<nat>)
    ensures |r| == |bios|
  {
    seq(|bios|, i requires 0 <= i < |bios| => bios[i].id)
  }

  function EndedIds(ended: seq<(nat, int)>): (r: seq<nat>)
    ensures |r| == |ended|
  {
    seq(|ended|, i requires 0 <= i < |ended| => ended[i].0)
  }

  /** The bios that the next `n` bytes belong to. */
  function Touched(bios: seq<Bio>, n: nat): set<nat> {
    if bios == [] || n == 0 then {}
    else {bios[0].id} + if n >= bios[0].size then Touched(bios[1..], n - bios[0].size) else {}
  }

  /** A bio is marked, or was ended with an error, exactly when it is in `blame`. */
  ghost predicate Blamed(r: Req, blame: set<nat>) {
    && (forall i :: 0 <= i < |r.bios| ==> (!r.bios[i].uptodate <==> r.bios[i].id in blame))
    && (forall i :: 0 <= i < |r.ended| ==> (r.ended[i].1 != 0 <==> r.ended[i].0 in blame))
    && NoDup(EndedIds(r.ended) + Ids(r.bios))
  }

  lemma {:induction false} TouchedIds(bios: seq<Bio>, n: nat)
    ensures forall x :: x in Touched(bios, n) ==> x in Ids(bios)
    decreases |bios|
  {
    if bios != [] {
      TouchedIds(bios[1..], if n >= bios[0].size then n - bios[0].size else 0);
      assert Ids(bios) == [bios[0].id] + Ids(bios[1..]);
    }
  }

  /** The bios are ended in order, and none is lost. */
  lemma {:induction false} EndedInOrder(r: Req, n: nat, err: int)
    ensures
      var r1 := Completed(r, n, err);
      EndedIds(r1.ended) + Ids(r1.bios) == EndedIds(r.ended) + Ids(r.bios)
    decreases |r.bios|
  {
    hide Drop;
    if r.bios != [] {
      var h, t := r.bios[0], r.bios[1..];
      assert Ids(r.bios) == [h.id] + Ids(t);
      if n >= h.size {
        var r1 := Req(t, r.ended + [(h.id, Outcome(h, err))]);
        assert EndedIds(r1.ended) == EndedIds(r.ended) + [h.id];
        EndedInOrder(r1, n - h.size, err);
      } else if n > 0 {
        assert Ids([Advanced(h, n, err)] + t) == [h.id] + Ids(t);
      }
    }
  }

  /** A bio that ends is told the error of the call that ends it; without one, -EIO if an earlier call failed on
      it, and otherwise success. */
  lemma {:induction false} EndedWith(r: Req, n: nat, err: int, i: nat)
    requires |r.ended| <= i < |Completed(r, n, err).ended|
    ensures |Completed(r, n, err).ended| <= |r.ended| + |r.bios| && r.ended <= Completed(r, n, err).ended
    ensures
      Completed(r, n, err).ended[i] ==
      (r.bios[i - |r.ended|].id, if err != 0 then err else if r.bios[i - |r.ended|].uptodate then 0 else -5)
    decreases |r.bios|
  {
    hide Drop;
    if r.bios != [] && n >= r.bios[0].size {
      var r1 := Req(r.bios[1..], r.ended + [(r.bios[0].id, Outcome(r.bios[0], err))]);
      if i > |r.ended| {
        EndedWith(r1, n - r.bios[0].size, err, i);
      }
      Grows(r1, n - r.bios[0].size, err);
      hide Completed;
      CompletedCases(r, n, err);
    }
  }

  /** What has ended stays ended, and no more end than there are. */
  lemma {:induction false} Grows(r: Req, n: nat, err: int)
    ensures r.ended <= Completed(r, n, err).ended && |Completed(r, n, err).ended| <= |r.ended| + |r.bios|
    decreases |r.bios|
  {
    hide Drop;
    if r.bios != [] && n >= r.bios[0].size {
      Grows(Req(r.bios[1..], r.ended + [(r.bios[0].id, Outcome(r.bios[0], err))]), n - r.bios[0].size, err);
    }
  }

  function After(blame: set<nat>, err: int, touched: set<nat>): set<nat> {
    if err != 0 then blame + touched else blame
  }

  /** The first bio's name occurs nowhere else. */
  lemma FirstDistinct(r: Req)
    requires r.bios != [] && NoDup(EndedIds(r.ended) + Ids(r.bios))
    ensures forall i :: 0 < i < |r.bios| ==> r.bios[i].id != r.bios[0].id
    ensures forall i :: 0 <= i < |r.ended| ==> r.ended[i].0 != r.bios[0].id
  {
    var l := EndedIds(r.ended) + Ids(r.bios);
    var k := |r.ended|;
    assert l[k] == r.bios[0].id;
    forall i | 0 < i < |r.bios| ensures r.bios[i].id != r.bios[0].id {
      assert l[k + i] == r.bios[i].id;
    }
    forall i | 0 <= i < |r.ended| ensures r.ended[i].0 != r.bios[0].id {
      assert l[i] == r.ended[i].0;
    }
  }

  lemma EndFirst(r: Req, err: int, blame: set<nat>)
    requires r.bios != [] && Blamed(r, blame)
    ensures
      var h := r.bios[0];
      Blamed(Req(r.bios[1..], r.ended + [(h.id, Outcome(h, err))]), After(blame, err, {h.id}))
  {
    var h := r.bios[0];
    FirstDistinct(r);
    var r1 := Req(r.bios[1..], r.ended + [(h.id, Outcome(h, err))]);
    assert EndedIds(r1.ended) == EndedIds(r.ended) + [h.id];
    assert Ids(r.bios) == [h.id] + Ids(r1.bios);
    assert EndedIds(r1.ended) + Ids(r1.bios) == EndedIds(r.ended) + Ids(r.bios);
  }

  lemma MarkFirst(r: Req, n: nat, err: int, blame: set<nat>)
    requires r.bios != [] && n <= r.bios[0].size && Blamed(r, blame)
    ensures
      var h := r.bios[0];
      Blamed(Req([Advanced(h, n, err)] + r.bios[1..], r.ended), After(blame, err, {h.id}))
  {
    hide Drop;
    var h := r.bios[0];
    FirstDistinct(r);
    var r1 := Req([Advanced(h, n, err)] + r.bios[1..], r.ended);
    assert Ids(r1.bios) == Ids(r.bios);
  }

  lemma {:induction false} CompletedBlames(r: Req, n: nat, err: int, blame: set<nat>)
    requires AllGood(r.bios) && Blamed(r, blame)
    ensures Blamed(Completed(r, n, err), After(blame, err, Touched(r.bios, n)))
    decreases |r.bios|
  {
    if r.bios != [] && n > 0 {
      var h, t := r.bios[0], r.bios[1..];
      assert Good(h);
      if n >= h.size {
        EndFirst(r, err, blame);
        var r1 := Req(t, r.ended + [(h.id, Outcome(h, err))]);
        var b1 := After(blame, err, {h.id});
        assert AllGood(t);
        CompletedBlames(r1, n - h.size, err, b1);
        hide Blamed;
        assert After(b1, err, Touched(t, n - h.size)) == After(blame, err, Touched(r.bios, n));
        if n == h.size {
          assert Touched(t, 0) == {};
          assert b1 == After(blame, err, Touched(r.bios, n));
        }
      } else {
        MarkFirst(r, n, err, blame);
        hide Blamed;
        assert Touched(r.bios, n) == {h.id};
      }
    } else {
      if r.bios != [] {
        assert Good(r.bios[0]);
      }
      assert After(blame, err, {}) == blame;
    }
  }

  // ----- any number of completions -----

  /** Each completion says how many bytes, and with what error. */
  function Run(r: Req, calls: seq<(nat, int)>): Req
    decreases |calls|
  {
    if calls == [] then r else Run(Completed(r, calls[0].0, calls[0].1), calls[1..])
  }

  /** The bios of which some bytes were completed with an error. */
  function Failed(r: Req, calls: seq<(nat, int)>): set<nat>
    decreases |calls|
  {
    if calls == [] then {}
    else
      (if calls[0].1 != 0 then Touched(r.bios, calls[0].0) else {}) +
      Failed(Completed(r, calls[0].0, calls[0].1), calls[1..])
  }

  lemma {:induction false} RunBlames(r: Req, calls: seq<(nat, int)>, blame: set<nat>)
    requires AllGood(r.bios) && Blamed(r, blame)
    ensures Blamed(Run(r, calls), blame + Failed(r, calls))
    ensures EndedIds(Run(r, calls).ended) + Ids(Run(r, calls).bios) == EndedIds(r.ended) + Ids(r.bios)
    decreases |calls|
  {
    if calls == [] {
      assert blame + {} == blame;
    } else {
      var n, err := calls[0].0, calls[0].1;
      CompletedBlames(r, n, err, blame);
      BytesLeft(r, n, err);
      EndedInOrder(r, n, err);
      var b1 := After(blame, err, Touched(r.bios, n));
      hide Blamed, AllGood;
      RunBlames(Completed(r, n, err), calls[1..], b1);
      assert b1 + Failed(Completed(r, n, err), calls[1..]) == blame + Failed(r, calls);
    }
  }

  /** However a request is completed, its bios are ended once each and in order, and a bio is ended
      with an error exactly when some of its bytes were completed with one. */
  lemma ErrorsReachTheRightBios(bios: seq<Bio>, calls: seq<(nat, int)>)
    requires AllGood(bios) && NoDup(Ids(bios)) && forall i :: 0 <= i < |bios| ==> bios[i].uptodate
    ensures
      var r := Run(Req(bios, []), calls);
      && EndedIds(r.ended) + Ids(r.bios) == Ids(bios)
      && forall i :: 0 <= i < |r.ended| ==> (r.ended[i].1 != 0 <==> r.ended[i].0 in Failed(Req(bios, []), calls))
  {
    var r := Req(bios, []);
    assert EndedIds(r.ended) + Ids(r.bios) == Ids(bios);
    RunBlames(r, calls, {});
    assert {} + Failed(r, calls) == Failed(r, calls);
  }
}

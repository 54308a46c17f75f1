/** __end_that_request_first of block/blk-core.c on the chain that it edits in place: the loop over the
    bios and their vectors, which ends the bios it passes, and the correction of the first bio that
    is left.  Both are tied to the completion of PartialCompletion. */
module RequestBios {
  import opened PartialCompletion

  class Request {
    var bios: seq<Bio>
    var ended: seq<(nat, int)>

    function State(): Req
      reads this
    {
      Req(bios, ended)
    }

    /** The first bio is done with: req_bio_endio for all of it. */
    method EndBio(error: int)
      requires bios != []
      modifies this
      ensures State() == Ending(old(State()), error)
    {
      ended := ended + [(bios[0].id, Outcome(bios[0], error))];
      bios := bios[1..];
    }

    /** The loop: whole bios are ended, and then the pieces counted that are done in the next one,
        the first `nextIdx` and `nr` bytes more. */
    method Walk(error: int, nrBytes: nat) returns (nextIdx: nat, nr: nat, bioNbytes: nat)
      requires AllGood(bios)
      modifies this
      ensures AllGood(bios) && Completed(old(State()), nrBytes, error) == Completed(State(), bioNbytes, error)
      ensures bios != [] ==> Stopped(bios[0], nextIdx, nr, bioNbytes)
    {
      hide Completed, AllGood, Good, Length, Drop, Within, Stopped;
      ghost var target := Completed(State(), nrBytes, error);
      nr, nextIdx, bioNbytes := nrBytes, 0, 0;
      NoneYet(bios);
      while bios != []
        invariant AllGood(bios) && target == Completed(State(), nr + bioNbytes, error)
        invariant bios != [] ==>
          Within(bios[0], nextIdx, bioNbytes) && (bioNbytes > 0 ==> nr + bioNbytes < bios[0].size)
        invariant bios == [] ==> bioNbytes == 0
        decreases |bios|, if bios != [] then |bios[0].vecs| - nextIdx else 0
      {
        FirstGood(bios);
        if nr >= bios[0].size {
          EndStep(State(), nr, error);
          nr := nr - bios[0].size;
          EndBio(error);
          nextIdx, bioNbytes := 0, 0;
          NoneYet(bios);
        } else {
          VecThere(bios[0], nextIdx, bioNbytes, nr);
          var nbytes := bios[0].vecs[nextIdx].len;
          if nbytes > nr {
            bioNbytes := bioNbytes + nr;
            return;
          }
          nextIdx := nextIdx + 1;
          bioNbytes := bioNbytes + nbytes;
          nr := nr - nbytes;
        }
        if bios != [] && nr == 0 {
          FirstGood(bios);
          VecThere(bios[0], nextIdx, bioNbytes, nr);
          return;
        }
      }
      NothingLeft(State(), nr, error);
    }

    /** False when the request is done. */
    method EndThatRequestFirst(error: int, nrBytes: nat) returns (more: bool)
      requires AllGood(bios)
      modifies this
      ensures State() == Completed(old(State()), nrBytes, error)
      ensures AllGood(bios) && (more <==> bios != [])
    {
      hide Memory;
      BytesLeft(State(), nrBytes, error);
      var nextIdx, nr, bioNbytes := Walk(error, nrBytes);
      more := bios != [];
      if more {
        Remainder(State(), nextIdx, nr, bioNbytes, error);
        hide Completed, AllGood, Good, Length, Drop, Within, Stopped;
        if bioNbytes > 0 {
          var b := bios[0];
          bios := [Bio(b.id, Moved(b.vecs[nextIdx..], nr), b.size - bioNbytes, b.uptodate && error == 0)] + bios[1..];
        }
      }
    }
  }

  /** The first piece is shortened by `n` bytes at its front. */
  function Moved(vecs: seq<Vec>, n: nat): seq<Vec>
    requires vecs != [] && n < vecs[0].len
  {
    [Vec(vecs[0].page, vecs[0].offset + n, vecs[0].len - n)] + vecs[1..]
  }

  /** Where the walk stops inside a bio. */
  predicate Stopped(b: Bio, k: nat, nr: nat, n: nat) {
    k < |b.vecs| && nr < b.vecs[k].len && n == Length(b.vecs[..k]) + nr < b.size
  }

  lemma NothingLeft(r: Req, n: nat, err: int)
    requires r.bios == []
    ensures Completed(r, n, err) == Completed(r, 0, err) == r
  {
  }

  lemma {:induction false} DropAt(vecs: seq<Vec>, k: nat, n: nat)
    requires (forall i :: 0 <= i < |vecs| ==> vecs[i].len > 0) && k < |vecs| && n < vecs[k].len
    ensures Drop(vecs, Length(vecs[..k]) + n) == Moved(vecs[k..], n)
    decreases k
  {
    if k == 0 {
      assert vecs[0..] == vecs;
      assert n == 0 ==> Moved(vecs, 0) == vecs;
    } else {
      assert vecs[..k][1..] == vecs[1..][..k - 1];
      DropAt(vecs[1..], k - 1, n);
      assert vecs[1..][k - 1..] == vecs[k..];
    }
  }

  /** What is left to do after the walk. */
  lemma Remainder(r: Req, k: nat, nr: nat, n: nat, err: int)
    requires AllGood(r.bios) && r.bios != [] && Stopped(r.bios[0], k, nr, n)
    ensures k < |r.bios[0].vecs| && nr < r.bios[0].vecs[k].len && n < r.bios[0].size
    ensures
      var b := r.bios[0];
      Completed(r, n, err) ==
        if n == 0 then r
        else Req([Bio(b.id, Moved(b.vecs[k..], nr), b.size - n, b.uptodate && err == 0)] + r.bios[1..], r.ended)
  {
    hide Drop, Length;
    assert Good(r.bios[0]);
    DropAt(r.bios[0].vecs, k, nr);
  }

  function Ending(r: Req, err: int): Req
    requires r.bios != []
  {
    Req(r.bios[1..], r.ended + [(r.bios[0].id, Outcome(r.bios[0], err))])
  }

  /** The first `k` pieces of the bio, of `n` bytes together, have been passed. */
  predicate Within(b: Bio, k: nat, n: nat) {
    k <= |b.vecs| && n == Length(b.vecs[..k]) <= b.size
  }

  lemma NoneYet(bios: seq<Bio>)
    ensures bios != [] ==> Within(bios[0], 0, 0)
  {
  }

  lemma FirstGood(bios: seq<Bio>)
    requires AllGood(bios) && bios != []
    ensures Good(bios[0]) && bios[0].size > 0 && AllGood(bios[1..])
  {
  }

  lemma EndStep(r: Req, n: nat, err: int)
    requires AllGood(r.bios) && r.bios != [] && n >= r.bios[0].size
    ensures Completed(r, n, err) == Completed(Ending(r, err), n - r.bios[0].size, err)
    ensures AllGood(Ending(r, err).bios)
  {
    var t := Ending(r, err);
    if t.bios != [] {
      assert Good(t.bios[0]);
    }
  }

  lemma {:induction false} LengthAppend(a: seq<Vec>, b: seq<Vec>)
    ensures Length(a + b) == Length(a) + Length(b)
  {
    if a == [] {
      assert a + b == b;
    } else {
      assert (a + b)[1..] == a[1..] + b;
      LengthAppend(a[1..], b);
    }
  }

  lemma LengthSplit(vecs: seq<Vec>, k: nat)
    requires k <= |vecs|
    ensures Length(vecs) == Length(vecs[..k]) + Length(vecs[k..])
    ensures k < |vecs| ==> Length(vecs[..k + 1]) == Length(vecs[..k]) + vecs[k].len
    ensures k == |vecs| ==> Length(vecs[..k]) == Length(vecs)
  {
    assert vecs[..|vecs|] == vecs;
    assert vecs == vecs[..k] + vecs[k..];
    LengthAppend(vecs[..k], vecs[k..]);
    if k < |vecs| {
      assert vecs[..k + 1] == vecs[..k] + [vecs[k]];
      LengthAppend(vecs[..k], [vecs[k]]);
      assert Length([vecs[k]]) == vecs[k].len + Length([]);
    }
  }

  /** While less than the whole bio is done there is a next piece; either the walk stops in it, or
      it passes it. */
  lemma VecThere(b: Bio, k: nat, n: nat, nr: nat)
    requires Good(b) && Within(b, k, n) && nr + n < b.size
    ensures k < |b.vecs| && n + b.vecs[k].len <= b.size && Within(b, k + 1, n + b.vecs[k].len)
    ensures nr < b.vecs[k].len ==> Stopped(b, k, nr, n + nr)
  {
    LengthSplit(b.vecs, k);
    if k < |b.vecs| {
      LengthSplit(b.vecs, k + 1);
    }
  }
}

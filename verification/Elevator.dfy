/** The merge hash of block/elevator.c as the chains that it changes in place: an array of lists,
    walked and pruned by a lookup, and the operations that move a request between chains.  Each
    method is tied to its step in MergeHash, so that a lookup stays exact over every sequence of
    calls. */
module Elevator {
  import opened Options
  import opened Lists
  import opened MergeHash

  class Elevator {
    const hash: array<seq<Id>>
    var reqs: map<Id, Req>
    var nrSorted: nat
    var last: Link

    ghost function State(): State
      reads this, hash
    {
      MergeHash.State(hash[..], reqs, nrSorted, last)
    }

    constructor ()
      ensures Right(State()) && State() == Init() && fresh(hash)
    {
      hash := new seq<Id>[ENTRIES](_ => []);
      reqs, nrSorted, last := map[], 0, None;
      new;
      assert hash[..] == seq(ENTRIES, _ => []);
    }

    /** elv_rqhash_del, of a request whose key is `key` */
    method RqhashDel(x: Id, key: nat)
      requires hash.Length == ENTRIES
      modifies hash
      ensures hash[..] == Unchained(old(hash[..]), Fn(key), x)
    {
      hide Fn, Remove;
      var h := Fn(key);
      if x in hash[h] {
        hash[h] := Remove(hash[h], x);
      }
    }

    /** elv_rqhash_add */
    method RqhashAdd(x: Id, key: nat)
      requires hash.Length == ENTRIES
      modifies hash
      ensures hash[..] == Chained(old(hash[..]), Fn(key), x)
    {
      hide Fn;
      hash[Fn(key)] := [x] + hash[Fn(key)];
    }

    /** elv_rqhash_find */
    method RqhashFind(offset: nat) returns (r: Link)
      requires Right(State())
      modifies hash
      ensures (State(), r) == Found(old(State()), offset) && Right(State())
    {
      LookupExact(State(), offset);
      hide Fn, Right, Complete, Search;
      var h := Fn(offset);
      var chain;
      chain, r := SearchChain(hash[h], offset);
      hash[h] := chain;
    }

    /** Its walk along one chain, from which unmergeable requests are dropped. */
    method SearchChain(chain: seq<Id>, offset: nat) returns (rest: seq<Id>, r: Link)
      requires forall x :: x in chain ==> x in reqs
      ensures (rest, r) == Search(chain, reqs, offset)
    {
      rest, r := chain, None;
      var i := 0;
      assert chain[0..] == chain && [] + Search(chain, reqs, offset).0 == Search(chain, reqs, offset).0;
      while i < |rest|
        invariant 0 <= i <= |rest|
        invariant forall x :: x in rest[i..] ==> x in reqs
        invariant Search(chain, reqs, offset) ==
          (rest[..i] + Search(rest[i..], reqs, offset).0, Search(rest[i..], reqs, offset).1)
        decreases |rest| - i
      {
        var x := rest[i];
        SearchStep(rest, i, reqs, offset);
        if !reqs[x].mergeable {
          rest := rest[..i] + rest[i + 1..];
        } else if Key(reqs[x]) == offset {
          r := Some(x);
          return;
        } else {
          i := i + 1;
        }
      }
      assert rest[..i] + [] == rest;
    }

    /** elv_insert, sorted insertion */
    method InsertSort(x: Id, r: Req)
      requires Right(State()) && x !in reqs
      modifies this, hash
      ensures State() == Added(old(State()), x, r) && Right(State())
    {
      hide Fn, Right, Chained;
      AddKeeps(State(), x, r);
      Sized(State());
      nrSorted := nrSorted + 1;
      if r.mergeable {
        RqhashAdd(x, Key(r));
        if last == None {
          last := Some(x);
        }
      }
      reqs := reqs[x := r];
    }

    /** elv_rqhash_reposition */
    method Reposition(x: Id, r: Req)
      requires Right(State()) && x in reqs && r.mergeable
      modifies this`reqs, hash
      ensures State() == Repositioned(old(State()), x, r) && Right(State()) && reqs == old(reqs)[x := r]
    {
      hide Fn, Right, Chained, Unchained;
      RepositionKeeps(State(), x, r);
      Sized(State());
      RqhashDel(x, Key(reqs[x]));
      reqs := reqs[x := r];
      RqhashAdd(x, Key(r));
    }

    /** A back merge of `n` sectors, and elv_merged_request. */
    method BackMerge(x: Id, n: nat)
      requires Right(State()) && x in reqs && reqs[x].mergeable
      modifies this, hash
      ensures State() == BackMerged(old(State()), x, n) && Right(State())
    {
      hide Right;
      ghost var s := State();
      BackMergeKeeps(s, x, n);
      hide *;
      Sized(s);
      BackMergedIs(s, x, n);
      Reposition(x, reqs[x].(length := reqs[x].length + n));
      SetLast(x);
    }

    /** A front merge of `n` sectors, and elv_merged_request. */
    method FrontMerge(x: Id, n: nat)
      requires Right(State()) && x in reqs && reqs[x].mergeable && n <= reqs[x].sector
      modifies this`reqs, this`last
      ensures State() == FrontMerged(old(State()), x, n) && Right(State()) && hash[..] == old(hash[..])
    {
      hide Right;
      FrontMergeKeeps(State(), x, n);
      reqs := reqs[x := reqs[x].(sector := reqs[x].sector - n, length := reqs[x].length + n)];
      last := Some(x);
    }

    /** elv_dispatch_sort and elv_dispatch_add_tail: the request leaves the hash. */
    method LeaveScheduler(x: Id)
      requires Right(State()) && x in reqs
      modifies this, hash
      ensures old(nrSorted) > 0 && hash.Length == ENTRIES
      ensures State() == Left(old(State()), x) && Right(State())
    {
      hide Fn, Right, Unchained;
      LeaveKeeps(State(), x);
      if last == Some(x) {
        last := None;
      }
      RqhashDel(x, Key(reqs[x]));
      nrSorted := nrSorted - 1;
      reqs := reqs - {x};
    }

    /** attempt_merge and elv_merge_requests */
    method MergeRequests(x: Id, next: Id)
      requires Right(State()) && x in reqs && next in reqs && x != next
      requires reqs[x].mergeable && reqs[next].mergeable
      modifies this, hash
      ensures old(nrSorted) > 0 && hash.Length == ENTRIES
      ensures State() == Joined(old(State()), x, next) && Right(State())
    {
      ghost var s := State();
      JoinKeeps(s, x, next);
      hide *;
      Sized(s);
      JoinedIs(s, x, next);
      var r := reqs[x].(length := reqs[x].length + reqs[next].length);
      RepositionKeeps(s, x, r);
      Reposition(x, r);
      LeaveScheduler(next);
      SetLast(x);
    }

    /** q->last_merge = rq */
    method SetLast(x: Id)
      modifies this`last
      ensures State() == old(State()).(last := Some(x))
    {
      last := Some(x);
    }
  }

  lemma Sized(s: State)
    requires Right(s)
    ensures |s.chains| == ENTRIES
  {
  }

  lemma SearchStep(l: seq<Id>, i: nat, reqs: map<Id, Req>, offset: nat)
    requires i < |l| && forall x :: x in l[i..] ==> x in reqs
    ensures l[i] in reqs && l[i..] == [l[i]] + l[i + 1..] && forall x :: x in l[i + 1..] ==> x in reqs
    ensures
      var x := reqs[l[i]];
      var m := l[..i] + l[i + 1..];
      var (rest, found) := Search(l[i..], reqs, offset);
      && m[i..] == l[i + 1..] && m[..i] == l[..i]
      && (!x.mergeable ==> (rest, found) == Search(l[i + 1..], reqs, offset))
      && (x.mergeable && Key(x) == offset ==> l[..i] + rest == l && found == Some(l[i]))
      && (x.mergeable && Key(x) != offset ==>
            l[..i] + rest == l[..i + 1] + Search(l[i + 1..], reqs, offset).0 &&
            found == Search(l[i + 1..], reqs, offset).1)
  {
    assert l[i..][1..] == l[i + 1..];
    assert l[i] in l[i..];
    if reqs[l[i]].mergeable && Key(reqs[l[i]]) != offset {
      assert l[..i] + ([l[i]] + Search(l[i + 1..], reqs, offset).0) == l[..i + 1] + Search(l[i + 1..], reqs, offset).0;
    }
  }
}

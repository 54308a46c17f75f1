/** Kernel lists as sequences: distinct entries, removal, insertion.  `list_del` takes the first occurrence of
    an entry, `list_add` and its kin insert at an index.  The facts say which entries are there afterwards
    and where, and that entries stay distinct, so that a proof about a queue of the block layer or of the
    crypto layer can hide how the sequence was cut and joined. */
module Lists {

  predicate NoDup<T(==)>(l: seq<T>) { forall i, j :: 0 <= i < j < |l| ==> l[i] != l[j] }

  function Index<T(==)>(l: seq<T>, x: T): (k: nat)
    requires x in l
    ensures k < |l| && l[k] == x && x !in l[..k]
  {
    if l[0] == x then 0 else 1 + Index(l[1..], x)
  }

  /** list_del */
  function Remove<T(==)>(l: seq<T>, x: T): seq<T>
    requires x in l
  {
    l[..Index(l, x)] + l[Index(l, x) + 1..]
  }

  function InsertAt<T>(l: seq<T>, k: nat, x: T): seq<T>
    requires k <= |l|
  {
    l[..k] + [x] + l[k..]
  }

  lemma IndexUnique<T>(l: seq<T>, x: T, k: nat)
    requires NoDup(l) && k < |l| && l[k] == x
    ensures Index(l, x) == k
  {
  }

  lemma RemoveAt<T>(l: seq<T>, x: T)
    requires x in l
    ensures var k := Index(l, x); var m := Remove(l, x);
            |m| == |l| - 1 && forall i :: 0 <= i < |m| ==> m[i] == l[if i < k then i else i + 1]
  {
  }

  lemma RemoveFacts<T>(l: seq<T>, x: T)
    requires NoDup(l) && x in l
    ensures NoDup(Remove(l, x)) && |Remove(l, x)| == |l| - 1
    ensures forall y :: y in Remove(l, x) <==> y in l && y != x
  {
    var k := Index(l, x);
    var m := Remove(l, x);
    RemoveAt(l, x);
    forall y | y in l && y != x ensures y in m {
      var i :| 0 <= i < |l| && l[i] == y;
      assert m[if i < k then i else i - 1] == y;
    }
  }

  lemma InsertFacts<T>(l: seq<T>, k: nat, x: T)
    requires k <= |l|
    ensures var m := InsertAt(l, k, x);
            && |m| == |l| + 1
            && (forall i :: 0 <= i < |m| ==> m[i] == if i < k then l[i] else if i == k then x else l[i - 1])
            && (forall y :: y in m <==> y in l || y == x)
            && (NoDup(l) && x !in l ==> NoDup(m))
  {
    var m := InsertAt(l, k, x);
    forall y | y in l ensures y in m {
      var i :| 0 <= i < |l| && l[i] == y;
      assert m[if i < k then i else i + 1] == y;
    }
    assert m[k] == x;
  }

  /** Putting `r` behind `n` and dropping `n` puts `r` in the place of `n`. */
  lemma TakesPlace<T>(l: seq<T>, k: nat, r: T)
    requires NoDup(l) && k < |l| && r !in l
    ensures l[k] in InsertAt(l, k + 1, r)
    ensures Remove(InsertAt(l, k + 1, r), l[k]) == l[k := r]
  {
    hide Remove, Index;
    var m, n := InsertAt(l, k + 1, r), l[k];
    InsertFacts(l, k + 1, r);
    IndexUnique(m, n, k);
    RemoveAt(m, n);
    hide Remove, InsertAt, Index;
    assert forall i :: 0 <= i < |l| ==> Remove(m, n)[i] == l[k := r][i];
  }

  function Flatten<T>(p: seq<seq<T>>): seq<T> { if p == [] then [] else p[0] + Flatten(p[1..]) }

  lemma FlattenAppend<T>(a: seq<seq<T>>, b: seq<seq<T>>)
    ensures Flatten(a + b) == Flatten(a) + Flatten(b)
  {
    if a == [] {
      assert a + b == b;
    } else {
      assert (a + b)[1..] == a[1..] + b;
      FlattenAppend(a[1..], b);
    }
  }
}

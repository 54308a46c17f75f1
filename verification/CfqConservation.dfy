/** CFQ neither loses nor invents requests. */
module CfqConservation {
  import opened Options
  import opened Lists
  import opened CfqQueue
  import opened Cfq

  /** What a step adds. */
  ghost function Entered(e: Step): multiset<Id> { if e.Insert? then multiset{e.rq.id} else multiset{} }

  /** What a step makes part of another request. */
  ghost function Absorbed(d: Data, e: Step): multiset<Id>
    requires Enabled(d, e)
  {
    if e.Merge? then multiset{d.qs[e.queue].sort[e.j].id} else multiset{}
  }

  lemma {:induction false} SameIds(qs: seq<Cfqq>, i: nat, q: Cfqq)
    requires i < |qs| && multiset(qs[i].fifo) == multiset(q.fifo)
    ensures AllIds(qs[i := q]) == AllIds(qs)
    decreases |qs|
  {
    if i == 0 {
      assert qs[0 := q][1..] == qs[1..];
    } else {
      assert qs[i := q][1..] == qs[1..][i - 1 := q];
      SameIds(qs[1..], i - 1, q);
    }
  }

  lemma JoinedAccount(d: Data, i: nat, x: Rq)
    requires i < |d.qs|
    ensures Account(Joined(d, i, x)) == Account(d) + multiset{x.id}
  {
    hide AllIds;
    var q := d.qs[i].(fifo := d.qs[i].fifo + [x.id]);
    AllIdsLess(d.qs[i := q], i, d.qs[i], x.id);
    assert d.qs[i := q][i := d.qs[i]] == d.qs;
  }

  lemma AddRbAccount(h: Head, d: Data, i: nat, x: Rq, pos: nat)
    requires Addable(d, i, x)
    ensures Account(AddRb(h, d, i, x, pos)) == Account(d)
  {
    hide AllIds, DispatchInsert, Slot, Choose, Placed;
    var d1 := ClearAlias(h, d, i, x);
    if HasAlias(d.qs[i].sort, x.sector) {
      DispatchAccount(h, d, i, Slot(d.qs[i].sort, x.sector));
    }
    assert Account(d1) == Account(d);
    SameIds(d1.qs, i, Linked(h, d1.qs[i], x));
  }

  lemma TakeOutAccount(d: Data, i: nat, k: nat, s: nat)
    requires i < |d.qs| && k < |d.qs[i].sort|
    ensures Account(TakeOut(d, i, k, s)) == Account(d)
  {
    hide AllIds;
    SameIds(d.qs, i, TakenOut(d.qs[i], k, s));
  }

  lemma InsertAccount(h: Head, d: Data, i: nat, x: Rq, pos: nat)
    requires Inv(d) && i < |d.qs| && x.id !in d.qs[i].fifo
    ensures Addable(Joined(d, i, x), i, x)
    ensures Account(Inserted(h, d, i, x, pos)) == Account(d) + multiset{x.id}
  {
    InsertKeeps(h, d, i, x, pos);
    JoinedAccount(d, i, x);
    AddRbAccount(h, Joined(d, i, x), i, x, pos);
    hide Inv, AddRb, AllIds, Addable, Joined;
  }

  lemma MovedAccount(l: seq<Id>, x: Id, y: Id)
    requires x in l && y in Remove(l, x)
    ensures multiset(MovedBehind(l, x, y)) == multiset(l)
  {
    RemoveMultiset(l, x);
    var m, k := Remove(l, x), Index(Remove(l, x), y) + 1;
    assert m == m[..k] + m[k..];
  }

  lemma FifoSame(q: Cfqq, k: nat, j: nat, older: bool)
    requires Good(q) && k < |q.sort| && j < |q.sort| && k != j
    ensures multiset(FifoAfter(q, k, j, older)) == multiset(q.fifo)
  {
    if older {
      FifoHas(q, k, j);
      MovedAccount(q.fifo, q.sort[k].id, q.sort[j].id);
    }
    hide Good, MovedBehind;
  }

  lemma RemoveAccount(h: Head, d: Data, i: nat, k: nat)
    requires Removable(d, i, k)
    ensures Account(RemoveRq(h, d, i, k)) + multiset{d.qs[i].sort[k].id} == Account(d)
  {
    hide AllIds, FindNext;
    var x := d.qs[i].sort[k].id;
    RemoveMultiset(d.qs[i].fifo, x);
    AllIdsLess(d.qs, i, Removed(h, d.qs[i], k), x);
  }

  lemma MergeAccount(h: Head, d: Data, i: nat, k: nat, j: nat, older: bool)
    requires Inv(d) && i < |d.qs| && k < |d.qs[i].sort| && j < |d.qs[i].sort| && k != j
    ensures Account(Merged(h, d, i, k, j, older)) + multiset{d.qs[i].sort[j].id} == Account(d)
  {
    var fifo := FifoAfter(d.qs[i], k, j, older);
    FifoSame(d.qs[i], k, j, older);
    SetFifoKeeps(d, i, fifo);
    var d1 := d.(qs := d.qs[i := d.qs[i].(fifo := fifo)]);
    RemoveRqKeeps(h, d1, i, j);
    SameIds(d.qs, i, d.qs[i].(fifo := fifo));
    RemoveAccount(h, d1, i, j);
    hide Inv, RemoveRq, AllIds, Removable, FifoAfter;
  }

  lemma SelectAccount(d: Data, used: bool, idle: bool, pos: nat)
    requires Inv(d)
    ensures Account(Selected(d, used, idle, pos).0) == Account(d)
  {
    ExpireKeeps(d, pos);
    hide Inv, AllIds, Expired, First;
  }

  lemma ForceAccount(h: Head, d: Data, pos: nat)
    requires Inv(d)
    ensures Account(Forced(h, d, pos).0) == Account(d)
  {
    ForcedEmptiesAll(h, d, pos);
    NothingHeld(Forced(h, d, pos).0.qs);
    hide Inv, Forced, AllIds;
  }

  lemma FrontAccount(h: Head, d: Data, i: nat, k: nat, s: nat, pos: nat)
    requires Inv(d) && i < |d.qs| && k < |d.qs[i].sort|
    ensures Addable(TakeOut(d, i, k, s), i, d.qs[i].sort[k].(sector := s))
    ensures Account(Repositioned(h, d, i, k, s, pos)) == Account(d)
  {
    RepositionKeeps(h, d, i, k, s, pos);
    TakeOutAccount(d, i, k, s);
    AddRbAccount(h, TakeOut(d, i, k, s), i, d.qs[i].sort[k].(sector := s), pos);
    hide Inv, AddRb, AllIds, Addable, TakeOut, Account;
  }

  lemma StayAccount(d: Data, i: nat, pos: nat)
    requires Inv(d)
    ensures Account(Resorted(d, i, pos)) == Account(d) && Account(Expired(d, pos)) == Account(d)
  {
    ResortKeeps(d, i, pos);
    ExpireKeeps(d, pos);
    ResortMoved(d, i, pos);
    hide Inv, AllIds, Expired, Resorted;
  }

  lemma ResortMoved(d: Data, i: nat, pos: nat)
    ensures Resorted(d, i, pos).moved == d.moved
  {
    hide Placed, Erased;
  }

  lemma ServeAccount(h: Head, d: Data, i: nat, expired: seq<bool>)
    requires Inv(d) && i < |d.qs|
    ensures Account(Round(h, d, i, expired).0) == Account(d)
  {
    hide Inv, Account, Round;
  }

  lemma StepAccount(h: Head, d: Data, e: Step)
    requires Inv(d) && Enabled(d, e)
    ensures Account(Apply(h, d, e)) + Absorbed(d, e) == Account(d) + Entered(e)
  {
    hide Inv, Account, Inserted, Repositioned, Merged, Resorted, Expired, Selected, Round, Forced, Joined, TakeOut;
    hide Addable;
    match e
    case Insert(i, x, pos) => InsertAccount(h, d, i, x, pos);
    case FrontMerge(i, k, s, pos) => FrontAccount(h, d, i, k, s, pos);
    case Merge(i, k, j, older) => MergeAccount(h, d, i, k, j, older);
    case Resort(i, pos) => StayAccount(d, i, pos);
    case Expire(pos) => StayAccount(d, 0, pos);
    case Select(used, idle, pos) => SelectAccount(d, used, idle, pos);
    case Serve(i, expired) => ServeAccount(h, d, i, expired);
    case Force(pos) => ForceAccount(h, d, pos);
  }

  ghost function AllEntered(steps: seq<(Head, Step)>): multiset<Id> {
    if steps == [] then multiset{} else Entered(steps[0].1) + AllEntered(steps[1..])
  }

  ghost function AllAbsorbed(d: Data, steps: seq<(Head, Step)>): multiset<Id>
    requires Inv(d) && Runs(d, steps)
    decreases |steps|
  {
    if steps == [] then multiset{}
    else Absorbed(d, steps[0].1) + AllAbsorbed(Apply(steps[0].0, d, steps[0].1), steps[1..])
  }

  lemma {:induction false} RunAccount(d: Data, steps: seq<(Head, Step)>)
    requires Inv(d) && Runs(d, steps)
    ensures Account(Run(d, steps)) + AllAbsorbed(d, steps) == Account(d) + AllEntered(steps)
    decreases |steps|
  {
    hide Inv, Apply, Enabled, Account, Absorbed, Entered;
    if steps != [] {
      StepAccount(steps[0].0, d, steps[0].1);
      var d1 := Apply(steps[0].0, d, steps[0].1);
      RunAccount(d1, steps[1..]);
      Balance(Account(Run(d, steps)), AllAbsorbed(d1, steps[1..]), Account(d1), AllEntered(steps[1..]),
              Absorbed(d, steps[0].1), Account(d), Entered(steps[0].1));
    }
  }

  lemma Balance(r: multiset<Id>, a: multiset<Id>, m: multiset<Id>, n: multiset<Id>,
                b: multiset<Id>, s: multiset<Id>, x: multiset<Id>)
    requires r + a == m + n && m + b == s + x
    ensures r + (b + a) == s + (x + n)
  {
    assert forall z :: (r + (b + a))[z] == (s + (x + n))[z] by {
      forall z ensures (r + (b + a))[z] == (s + (x + n))[z] {
        assert (r + a)[z] == (m + n)[z] && (m + b)[z] == (s + x)[z];
      }
    }
  }

  /** Over every run, what has gone to the dispatch list, what the queues still hold and what was absorbed by merges is,
      counted with repetitions, exactly what was inserted. */
  lemma NothingLost(n: nat, steps: seq<(Head, Step)>)
    requires Runs(Init(n), steps)
    ensures
      var d := Run(Init(n), steps);
      multiset(d.moved) + AllIds(d.qs) + AllAbsorbed(Init(n), steps) == AllEntered(steps)
  {
    RunAccount(Init(n), steps);
    NothingHeld(Init(n).qs);
    hide Inv, Run, Runs, AllAbsorbed, AllEntered, AllIds;
  }
}

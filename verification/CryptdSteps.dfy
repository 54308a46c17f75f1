/** Every step of the worker of crypto/cryptd.c and of its callers keeps the invariant of Cryptd.  The
    lemmas follow a submission that finds room, one that must wait, and the turn of the worker that
    takes the first request and lets the first of those that wait move up.  The notices given, with
    the one that is owed, are at every moment those of the submissions that no longer wait. */
module CryptdSteps {
  import opened Options
  import opened Lists
  import opened CryptoQueue
  import opened Cryptd

  lemma WaitersNext(a: seq<Submission>, k: nat)
    requires k < |a|
    ensures Waiters(a[..k + 1]) == Waiters(a[..k]) + if a[k].busy then [a[k].id] else []
  {
    assert a[..k + 1][..k] == a[..k];
  }

  lemma {:induction false} WaitersGrow(a: seq<Submission>, i: nat, j: nat)
    requires i <= j <= |a|
    ensures Waiters(a[..i]) <= Waiters(a[..j])
    decreases j
  {
    if i < j {
      WaitersGrow(a, i, j - 1);
      WaitersNext(a, j - 1);
    }
  }

  lemma SubmitKeeps(s: State, x: Id, mayBacklog: bool)
    requires Inv(s) && Idle(s, x)
    ensures Inv(Submitted(s, x, mayBacklog))
  {
    hide Waiters;
    EnqueueAccurate(s.q, x, mayBacklog);
    if |s.q.list| < s.q.maxQlen || mayBacklog {
      var t := Submitted(s, x, mayBacklog);
      EntersInOrder(s, t, x);
      if |s.q.list| < s.q.maxQlen {
        EntersFree(s, t);
      } else {
        EntersWaiting(s, t);
      }
    }
  }

  lemma EntersInOrder(s: State, t: State, x: Id)
    requires InOrder(s) && t.q.list == s.q.list + [x] && t.worker == s.worker && t.log.done == s.log.done
    requires |t.log.accepted| > 0 && t.log.accepted[..|t.log.accepted| - 1] == s.log.accepted
    requires t.log.accepted[|t.log.accepted| - 1].id == x
    ensures InOrder(t)
  {
    var a, b := s.log.accepted, t.log.accepted;
    assert b == a + [b[|b| - 1]];
    assert Ids(b) == Ids(a) + [x];
    assert t.log.done + Links(t.worker.held) + t.q.list == s.log.done + Links(s.worker.held) + s.q.list + [x];
  }

  /** There is room: nobody waits, and the newcomer does not either. */
  lemma EntersFree(s: State, t: State)
    requires InOrder(s) && Notices(s) && NoticeDue(s)
    requires |s.q.list| < s.q.maxQlen == t.q.maxQlen && |t.q.list| == |s.q.list| + 1
    requires t.worker == s.worker && t.log.done == s.log.done && t.log.told == s.log.told
    requires |t.log.accepted| > 0 && t.log.accepted[..|t.log.accepted| - 1] == s.log.accepted
    requires !t.log.accepted[|t.log.accepted| - 1].busy
    ensures Notices(t) && Waiting(t) && NoticeDue(t)
  {
    var a, b := s.log.accepted, t.log.accepted;
    assert |a| == |Ids(a)|;
    assert Admitted(s) == |a| && Admitted(t) == |b|;
    assert b[..|s.log.done|] == a[..|s.log.done|] && a[..|a|] == a;
    WaitersNext(b, |a|);
  }

  /** There is none: the newcomer waits. */
  lemma EntersWaiting(s: State, t: State)
    requires InOrder(s) && Notices(s) && Waiting(s) && NoticeDue(s)
    requires |s.q.list| >= s.q.maxQlen == t.q.maxQlen && |t.q.list| == |s.q.list| + 1
    requires t.worker == s.worker && t.log.done == s.log.done && t.log.told == s.log.told
    requires |t.log.accepted| > 0 && t.log.accepted[..|t.log.accepted| - 1] == s.log.accepted
    requires t.log.accepted[|t.log.accepted| - 1].busy
    ensures Notices(t) && Waiting(t) && NoticeDue(t)
  {
    var a, b := s.log.accepted, t.log.accepted;
    assert |a| == |Ids(a)|;
    assert Admitted(t) == Admitted(s);
    assert b[..Admitted(s)] == a[..Admitted(s)] && b[..|s.log.done|] == a[..|s.log.done|];
    forall i | Admitted(t) <= i < |b| ensures b[i].busy {
      assert i < |a| ==> a[i] == b[i];
    }
  }

  lemma FetchKeeps(s: State)
    requires Inv(s) && Enabled(s, Fetch)
    ensures Inv(Apply(s, Fetch))
  {
    hide InOrder, Waiters, Admitted, Apply;
    var t := Apply(s, Fetch);
    FetchFacts(s, t);
    FetchInOrder(s, t);
    FetchNotices(s, t);
  }

  /** What a fetch does to the queue and the worker. */
  predicate Fetched(s: State, t: State) {
    && s.worker == Worker(None, None) && s.q.list != [] && t.log == s.log
    && t.q.list == s.q.list[1..] && t.q.maxQlen == s.q.maxQlen
    && t.worker == Worker(Entry(s.q.list, s.q.maxQlen), Some(s.q.list[0]))
  }

  lemma FetchFacts(s: State, t: State)
    requires Inv(s) && Enabled(s, Fetch) && t == Apply(s, Fetch)
    ensures Fetched(s, t) && Accurate(t.q) && s.q.list[0] !in t.q.list
  {
    hide InOrder, Notices, Waiting, NoticeDue;
    DequeueAccurate(s.q);
  }

  lemma FetchInOrder(s: State, t: State)
    requires InOrder(s) && Fetched(s, t)
    ensures InOrder(t)
  {
    assert s.log.done + [] + s.q.list == t.log.done + [s.q.list[0]] + t.q.list;
  }

  /** When more are queued than may be, the first of those who wait moves up and is owed a notice. */
  lemma FetchNotices(s: State, t: State)
    requires InOrder(s) && Notices(s) && Waiting(s) && Fetched(s, t)
    ensures Notices(t) && Waiting(t) && NoticeDue(t)
  {
    hide InOrder, Ids, Admitted;
    var a, k := s.log.accepted, Admitted(s);
    FetchAdmits(s, t);
    if |s.q.list| > s.q.maxQlen {
      WaitersNext(a, k);
      WaitersGrow(a, |s.log.done|, k);
      assert s.log.told + [] == s.log.told;
    }
  }

  lemma FetchAdmits(s: State, t: State)
    requires InOrder(s) && Fetched(s, t)
    ensures |s.log.done| <= Admitted(s) <= |s.log.accepted|
    ensures |s.q.list| <= s.q.maxQlen ==> Admitted(t) == Admitted(s) && t.worker.owed == None
    ensures |s.q.list| > s.q.maxQlen ==>
      && Admitted(t) == Admitted(s) + 1 && Admitted(s) < |s.log.accepted|
      && t.worker.owed == Some(s.log.accepted[Admitted(s)].id)
  {
    var a, k := s.log.accepted, Admitted(s);
    assert |a| == |Ids(a)|;
    if |s.q.list| > s.q.maxQlen {
      assert Ids(a)[k] == s.q.list[s.q.maxQlen] == a[k].id;
    }
  }

  lemma WorkKeeps(s: State, e: Step)
    requires Inv(s) && Enabled(s, e) && (e == Notify || e == Finish)
    ensures Inv(Apply(s, e))
  {
    var t := Apply(s, e);
    assert |s.log.accepted| == |Ids(s.log.accepted)|;
    if e == Notify {
      assert t.log.told + [] == s.log.told + [s.worker.owed.value];
    } else {
      assert t.log.done + [] + t.q.list == s.log.done + [s.worker.held.value] + s.q.list;
    }
  }

  lemma StepKeeps(s: State, e: Step)
    requires Inv(s) && Enabled(s, e)
    ensures Inv(Apply(s, e))
  {
    match e
    case SetCallback(_) =>
    case Submit(x, mayBacklog) => SubmitKeeps(s, x, mayBacklog);
    case Fetch => FetchKeeps(s);
    case Notify => WorkKeeps(s, e);
    case Finish => WorkKeeps(s, e);
  }

  lemma {:induction false} RunKeeps(s: State, steps: seq<Step>)
    requires Inv(s) && Runs(s, steps)
    ensures Inv(Run(s, steps))
    decreases |steps|
  {
    if steps != [] {
      StepKeeps(s, steps[0]);
      RunKeeps(Apply(s, steps[0]), steps[1..]);
    }
  }
}

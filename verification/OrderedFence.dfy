/** What dispatching may not pass. */
module OrderedFence {
  import opened Lists
  import opened OrderedQueue

  /** The step puts `x` into the list other than from the scheduler, or offers it to the driver. */
  predicate Puts(q: Q, s: Step, x: Req)
    requires Enabled(q, s)
  {
    || (!s.SDispatch? && x !in q.list && x in Apply(q, s).list)
    || (s.SNext? && NextTurn(q).1 == Give(x))
  }

  predicate Fenced(q: Q, x: Req) { x in q.soft || x in q.started || IsHard(x) }

  /** A run in which `x` is not completed. */
  predicate NotCompleted(run: seq<Step>, x: Req) {
    forall i :: 0 <= i < |run| && run[i].SComplete? ==> run[i].r != x
  }

  lemma PutsFenced(q: Q, s: Step, x: Req)
    requires Enabled(q, s) && Puts(q, s, x)
    ensures Fenced(Apply(q, s), x)
  {
    match s
    case SAddFs(hard, empty, sorted) => Appended(q.list, NewRq(q, true, hard, empty), x);
    case SAddSpecial(hard, front) => Appended(q.list, NewRq(q, false, hard, false), x);
    case SNext => NextFenced(q, x);
    case SRequeue(r) => InsertFacts(q.list, RequeueSlot(q, r), r);
    case SDequeue(r) => RemoveOnly(q.list, r, x);
    case SComplete(r, _, _) => if r in q.list { RemoveOnly(q.list, r, x); }
    case _ =>
  }

  lemma Appended(l: seq<Req>, r: Req, x: Req)
    ensures x in l + [r] ==> x in l || x == r
    ensures x in [r] + l ==> x in l || x == r
  {
  }

  lemma RemoveOnly(l: seq<Req>, r: Req, x: Req)
    requires r in l
    ensures x in Remove(l, r) ==> x in l
  {
  }

  lemma NextFenced(q: Q, x: Req)
    requires |q.list| > 0
    requires (x !in q.list && x in NextTurn(q).0.list) || NextTurn(q).1 == Give(x)
    ensures Fenced(NextTurn(q).0, x)
  {
    hide DoOrdered, Complete;
    OrderedAdds(q, x);
    CompleteAdds(DoOrdered(q).0, BarProxy, 0, true, x);
  }

  lemma OrderedAdds(q: Q, x: Req)
    requires |q.list| > 0
    ensures x !in q.list && x in DoOrdered(q).0.list ==> IsHard(x)
  {
    if !q.ord.started && !q.mode.NoOrder? && q.list[0].Rq? {
      StackAdds(TakeBarrier(q), x);
    }
  }

  lemma StackAdds(q: Q, x: Req)
    requires q.orig.Rq? && !q.mode.NoOrder?
    ensures x in StackSequence(q).list ==> x in q.list || IsHard(x)
  {
    var p := Proxies(q.mode, q.orig.empty);
    assert forall y :: y in p ==> !y.Rq?;
    assert x in p + q.list ==> x in p || x in q.list;
  }

  lemma CompleteAdds(q: Q, r: Req, err: int, put: bool, x: Req)
    ensures x in Complete(q, r, err, put).list ==> x in q.list
    ensures Complete(q, r, err, put).soft == q.soft
    ensures x != r && x in q.started ==> x in Complete(q, r, err, put).started
  {
    if r in q.list { RemoveOnly(q.list, r, x); }
  }

  lemma StepFenced(q: Q, s: Step, x: Req)
    requires Enabled(q, s) && Fenced(q, x) && (s.SComplete? ==> s.r != x)
    ensures Fenced(Apply(q, s), x)
  {
    hide Complete;
    match s
    case SComplete(r, err, put) => CompleteAdds(q, r, err, put, x);
    case SNext => NextKeeps(q, x);
    case _ =>
  }

  lemma NextKeeps(q: Q, x: Req)
    requires |q.list| > 0 && Fenced(q, x)
    ensures Fenced(NextTurn(q).0, x)
  {
    hide Complete;
    CompleteAdds(DoOrdered(q).0, BarProxy, 0, true, x);
  }

  lemma {:induction false} RunFenced(q: Q, run: seq<Step>, q1: Q, x: Req)
    requires Runs(q, run, q1) && Fenced(q, x) && NotCompleted(run, x)
    ensures Fenced(q1, x)
    decreases |run|
  {
    hide Apply, Fenced, Enabled;
    if run != [] {
      StepFenced(q, run[0], x);
      assert NotCompleted(run[1..], x);
      RunFenced(Apply(q, run[0]), run[1..], q1, x);
    }
  }

  /** What was inserted at either end of the list or put back, what belongs to a sequence and what was offered to
      the driver: as long as it is in the list, nothing that the scheduler dispatches goes before it. */
  lemma NotPassed(q: Q, s: Step, x: Req, run: seq<Step>, q1: Q, y: Req, pos: nat)
    requires Enabled(q, s) && Puts(q, s, x) && Runs(Apply(q, s), run, q1) && NotCompleted(run, x)
    requires Enabled(q1, SDispatch(y, pos))
    ensures pos <= |q1.list| && forall i :: 0 <= i < |q1.list| && q1.list[i] == x ==> i < pos
  {
    hide Puts, Apply;
    PutsFenced(q, s, x);
    RunFenced(Apply(q, s), run, q1, x);
  }
}

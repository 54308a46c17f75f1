/** The worker of crypto/cryptd.c and its callers, as a machine over their critical sections: a submission
    swaps the completion function and enqueues under the lock, the worker dequeues under the lock, tells
    the request that may leave the backlog, and then runs and completes the one it holds.  Callers may
    run between any two of these. */
module Cryptd {
  import opened Options
  import opened Lists
  import opened CryptoQueue

  /** An accepted submission, and whether it was answered with -EBUSY. */
  datatype Submission = Submission(id: Id, busy: bool)

  /** What the callers have seen. */
  datatype Log = Log(accepted: seq<Submission>, told: seq<Id>, done: seq<Id>)

  /** Whose completion function a request carries: `swapped` those that carry the worker's,
      `trapped` those for which the worker has kept its own as the caller's. */
  datatype Hooks = Hooks(swapped: set<Id>, trapped: set<Id>)

  /** The worker between turns holds nothing; in a turn it owes a notice to `owed`, if anything, and
      then runs `held`. */
  datatype Worker = Worker(owed: Link, held: Link)

  datatype State = State(q: Q, worker: Worker, log: Log, hooks: Hooks)

  datatype Step =
    | SetCallback(id: Id)
    | Submit(id: Id, mayBacklog: bool)
    | Fetch
    | Notify
    | Finish

  function Init(maxQlen: nat): State {
    State(Q([], None, 0, maxQlen), Worker(None, None), Log([], [], []), Hooks({}, {}))
  }

  predicate Idle(s: State, x: Id) { x !in s.q.list && s.worker.held != Some(x) }

  predicate Usable(q: Q) {
    q.qlen > 0 ==> q.list != [] && (q.backlog == None || q.backlog.value in q.list)
  }

  /** Callers leave a request alone while it is queued or running.  The worker sees the two links
      in one critical section.  A completion function that is its own caller's never returns. */
  predicate Enabled(s: State, e: Step) {
    match e
    case SetCallback(x) => Idle(s, x)
    case Submit(x, _) => Idle(s, x)
    case Fetch => s.worker.held == None && Usable(s.q) && s.q.qlen > 0
    case Notify => s.worker.owed != None && s.worker.owed.value !in s.hooks.trapped
    case Finish => s.worker.held != None && s.worker.owed == None && s.worker.held.value !in s.hooks.trapped
  }

  /** cryptd_blkcipher_enqueue: the completion functions are swapped before the queue is asked. */
  function Submitted(s: State, x: Id, mayBacklog: bool): State {
    var (q, code) := Enqueued(s.q, x, mayBacklog);
    var hooks := Hooks(s.hooks.swapped + {x},
                       if x in s.hooks.swapped then s.hooks.trapped + {x} else s.hooks.trapped - {x});
    var entered := s.q.qlen < s.q.maxQlen || mayBacklog;
    s.(q := q, hooks := hooks,
       log := if entered then s.log.(accepted := s.log.accepted + [Submission(x, code == Busy)]) else s.log)
  }

  function Apply(s: State, e: Step): State
    requires Enabled(s, e)
  {
    match e
    case SetCallback(x) => s.(hooks := s.hooks.(swapped := s.hooks.swapped - {x}))
    case Submit(x, mayBacklog) => Submitted(s, x, mayBacklog)
    case Fetch =>
      var (q, held) := Dequeued(s.q);
      s.(q := q, worker := Worker(s.q.backlog, held))
    case Notify =>
      s.(worker := s.worker.(owed := None), log := s.log.(told := s.log.told + [s.worker.owed.value]))
    case Finish =>
      var x := s.worker.held.value;
      s.(worker := Worker(None, None), log := s.log.(done := s.log.done + [x]),
         hooks := s.hooks.(swapped := s.hooks.swapped - {x}))
  }

  predicate Runs(s: State, steps: seq<Step>)
    decreases |steps|
  {
    steps == [] || (Enabled(s, steps[0]) && Runs(Apply(s, steps[0]), steps[1..]))
  }

  function Run(s: State, steps: seq<Step>): State
    requires Runs(s, steps)
    decreases |steps|
  {
    if steps == [] then s else Run(Apply(s, steps[0]), steps[1..])
  }

  // ----- what every step keeps -----

  function Ids(a: seq<Submission>): (r: seq<Id>)
    ensures |r| == |a|
  {
    seq(|a|, i requires 0 <= i < |a| => a[i].id)
  }

  /** Those of `a` that were told to wait, in order. */
  function Waiters(a: seq<Submission>): seq<Id> {
    if a == [] then []
    else Waiters(a[..|a| - 1]) + if a[|a| - 1].busy then [a[|a| - 1].id] else []
  }

  function Links(l: Link): seq<Id> { if l == None then [] else [l.value] }

  function Min(a: nat, b: nat): nat { if a < b then a else b }

  /** How many accepted submissions have left the waiting part of the queue. */
  function Admitted(s: State): nat {
    |s.log.done| + |Links(s.worker.held)| + Min(s.q.maxQlen, |s.q.list|)
  }

  /** Submissions run in the order of acceptance: those done, the one in hand, those queued. */
  predicate InOrder(s: State) {
    Ids(s.log.accepted) == s.log.done + Links(s.worker.held) + s.q.list
  }

  /** The notices given, with the one owed, are those of the submissions that no longer wait. */
  predicate Notices(s: State) {
    && Admitted(s) <= |s.log.accepted|
    && s.log.told + Links(s.worker.owed) == Waiters(s.log.accepted[..Admitted(s)])
  }

  /** Whoever still waits was told so. */
  predicate Waiting(s: State) {
    forall i :: Admitted(s) <= i < |s.log.accepted| ==> s.log.accepted[i].busy
  }

  predicate Inv(s: State) {
    && Accurate(s.q) && InOrder(s) && Notices(s) && Waiting(s)
    && (s.worker.held == None ==> s.worker.owed == None)
    && (s.worker.held != None ==> s.worker.held.value !in s.q.list)
    && NoticeDue(s)
  }

  /** A notice that is owed has not been given to anyone whose request is done. */
  predicate NoticeDue(s: State)
  {
    s.worker.owed != None && |s.log.done| <= |s.log.accepted| && Admitted(s) <= |s.log.accepted| ==>
      |Waiters(s.log.accepted[..|s.log.done|])| < |Waiters(s.log.accepted[..Admitted(s)])|
  }
}

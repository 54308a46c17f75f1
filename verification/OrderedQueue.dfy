/** The ordered-write (barrier) protocol of block/blk-barrier.c together with the dispatch
    list of block/elevator.c that carries it.

    A queue is a value `Q`; every operation the code performs under the queue lock is a
    function from one `Q` to the next.  The scheduler is any set of requests: a dispatch may
    take any of them and put it at any place behind the last scheduling boundary, which covers
    `elv_dispatch_sort` and `elv_dispatch_add_tail` for every I/O scheduler.  */
module OrderedQueue {
  import opened Lists

  /** The three requests embedded in the queue, and ordinary requests.  `hard` is
      REQ_HARDBARRIER, `color` REQ_ORDERED_COLOR, `empty` a barrier without data.
      `id` numbers the requests in the order they were added and `epoch` counts the barriers
      added before; both are history, no operation reads them.  */
  datatype Req =
    | PreFlush
    | BarProxy
    | PostFlush
    | Rq(id: nat, fs: bool, hard: bool, empty: bool, color: bool, epoch: nat)

  predicate IsFs(r: Req) { r.BarProxy? || (r.Rq? && r.fs) }

  predicate IsHard(r: Req) { !r.Rq? || r.hard }

  predicate Plain(r: Req) { r.Rq? && r.fs && !r.hard }

  predicate Barrier(r: Req) { r.Rq? && r.fs && r.hard }

  predicate Special(r: Req) { r.Rq? && !r.fs }

  /** QUEUE_ORDERED_NONE, and the draining and tagged families with their flushes.  The FUA
      variants have no post-flush. */
  datatype Mode = NoOrder | Drain(pre: bool, post: bool) | Tag(pre: bool, post: bool)

  const DRAIN: nat := 2
  const PREFLUSH: nat := 4
  const BAR: nat := 8
  const POSTFLUSH: nat := 16
  const DONE: nat := 32

  const EOPNOTSUPP: int := -95

  /** q->ordseq, bit by bit. */
  datatype Ordseq = Ordseq(started: bool, drain: bool, pre: bool, bar: bool, post: bool)

  const IDLE := Ordseq(false, false, false, false, false)

  /** blk_ordered_cur_seq: the lowest clear bit of a running sequence. */
  function CurSeq(o: Ordseq): nat {
    if !o.started then 0
    else if !o.drain then DRAIN
    else if !o.pre then PREFLUSH
    else if !o.bar then BAR
    else if !o.post then POSTFLUSH
    else DONE
  }

  function SetBit(o: Ordseq, step: nat): Ordseq {
    if step == DRAIN then o.(drain := true)
    else if step == PREFLUSH then o.(pre := true)
    else if step == BAR then o.(bar := true)
    else o.(post := true)
  }

  predicate HasBit(o: Ordseq, step: nat) {
    if step == DRAIN then o.drain
    else if step == PREFLUSH then o.pre
    else if step == BAR then o.bar
    else o.post
  }

  /** blk_ordered_req_seq, given the colour of the barrier being processed. */
  function ReqSeq(color: bool, r: Req): (s: nat)
    ensures s == DRAIN || s == PREFLUSH || s == BAR || s == POSTFLUSH || s == DONE
  {
    match r
    case PreFlush => PREFLUSH
    case BarProxy => BAR
    case PostFlush => POSTFLUSH
    case Rq(_, fs, _, _, c, _) => if !fs || c == color then DRAIN else DONE
  }

  function StepOf(p: Req): nat {
    match p
    case PreFlush => PREFLUSH
    case BarProxy => BAR
    case _ => POSTFLUSH
  }

  /** History of the barriers: how many have left the list; the steps and errors of the current
      or last sequence and the steps it skipped; the barriers that were ended, each with the
      error it was given. */
  datatype History = History(
    begun: nat,
    trace: seq<nat>,
    skipped: set<nat>,
    errs: seq<int>,
    ended: seq<(Req, int)>)

  /** The request queue.  `bars`, all barriers ever added, and `hist` are history; `unput`
      counts ended special requests whose owner still holds a reference. */
  datatype Q = Q(
    mode: Mode,
    list: seq<Req>,
    sched: set<Req>,
    driver: set<Req>,
    started: set<Req>,
    soft: set<Req>,
    inFlight: int,
    ordcolor: bool,
    ord: Ordseq,
    orig: Req,
    orderr: int,
    bars: seq<Req>,
    nextId: nat,
    unput: nat,
    hist: History)

  function Init(mode: Mode): Q {
    Q(mode, [], {}, {}, {}, {}, 0, false, IDLE, PreFlush, 0, [], 0, 0, History(0, [], {}, [], []))
  }

  /** When a request was added; the embedded requests never are. */
  function Arrived(r: Req): int { if r.Rq? then r.id else -1 }

  /** A request that was added and has not been completed. */
  predicate Live(q: Q, r: Req) { r in q.list || r in q.sched || r in q.driver }

  predicate Accounted(q: Q, r: Req) { r in q.started && IsFs(r) }

  function B2I(b: bool): int { if b then 1 else 0 }

  // ----- where a requeue inserts -----

  /** Where a requeue inserts while a sequence runs: before the first request whose turn is not
      earlier. */
  function Slot(color: bool, l: seq<Req>, s: nat): (k: nat)
    ensures k <= |l|
    ensures forall i :: 0 <= i < k ==> ReqSeq(color, l[i]) < s
    ensures k < |l| ==> s <= ReqSeq(color, l[k])
  {
    if l == [] || s <= ReqSeq(color, l[0]) then 0 else 1 + Slot(color, l[1..], s)
  }

  // ----- adding and dispatching -----

  function NewRq(q: Q, fs: bool, hard: bool, empty: bool): Req {
    Rq(q.nextId, fs, hard, empty, q.ordcolor, |q.bars|)
  }

  /** elv_insert at the back of a file-system request. */
  function AppendFs(q: Q, r: Req, hard: bool): Q {
    q.(list := q.list + [r], soft := q.soft + {r}, nextId := q.nextId + 1,
       ordcolor := if hard then !q.ordcolor else q.ordcolor,
       bars := if hard then q.bars + [r] else q.bars)
  }

  /** __elv_add_request for a file-system request.  A barrier is always inserted at the back;
      back insertion follows elv_drain_elevator, so the scheduler is empty. */
  function AddFs(q: Q, hard: bool, empty: bool, sorted: bool): Q {
    var r := NewRq(q, true, hard, empty);
    if sorted && !hard then q.(sched := q.sched + {r}, nextId := q.nextId + 1)
    else AppendFs(q, r, hard)
  }

  /** __elv_add_request for a request that is not a file-system request.  The colour toggles
      on REQ_HARDBARRIER whatever the type of the request. */
  function AddSpecial(q: Q, hard: bool, front: bool): Q {
    var r := NewRq(q, false, hard, false);
    q.(list := if front then [r] + q.list else q.list + [r], soft := q.soft + {r},
       nextId := q.nextId + 1, ordcolor := if hard then !q.ordcolor else q.ordcolor)
  }

  /** REQ_SOFTBARRIER | REQ_HARDBARRIER | REQ_STARTED */
  predicate Stops(q: Q, r: Req) { r in q.soft || IsHard(r) || r in q.started }

  predicate DispatchSlot(q: Q, pos: nat) {
    pos <= |q.list| && forall i :: pos <= i < |q.list| ==> !Stops(q, q.list[i])
  }

  function Dispatch(q: Q, r: Req, pos: nat): Q
    requires pos <= |q.list|
  {
    q.(sched := q.sched - {r}, list := InsertAt(q.list, pos, r))
  }

  // ----- the barrier sequence -----

  function NoteStep(q: Q, step: nat, err: int): Q {
    q.(orderr := if err != 0 && q.orderr == 0 then err else q.orderr, ord := SetBit(q.ord, step),
       hist := q.hist.(trace := q.hist.trace + [step], errs := q.hist.errs + [err]))
  }

  function EndIfDone(q: Q): Q {
    if CurSeq(q.ord) != DONE then q else q.(ord := IDLE, hist := q.hist.(ended := q.hist.ended + [(q.orig, q.orderr)]))
  }

  /** blk_ordered_complete_seq */
  function CompleteSeq(q: Q, step: nat, err: int): (q1: Q)
    ensures q1 == q.(ord := q1.ord, orderr := q1.orderr, hist := q1.hist)
    ensures q1.hist.begun == q.hist.begun && q1.hist.skipped == q.hist.skipped
  {
    EndIfDone(NoteStep(q, step, err))
  }

  function OrigColor(q: Q): bool { q.orig.Rq? && q.orig.color }

  /** The older requests have drained, and the head of the list is not one of them. */
  predicate DrainEnds(q: Q) {
    && q.ord.started && q.inFlight == 0 && CurSeq(q.ord) == DRAIN
    && |q.list| > 0 && ReqSeq(OrigColor(q), q.list[0]) > DRAIN
  }

  /** The last part of elv_completed_request. */
  function DrainCheck(q: Q): (q1: Q)
    ensures q1 == q.(ord := q1.ord, orderr := q1.orderr, hist := q1.hist)
    ensures q1.hist.begun == q.hist.begun && q1.hist.skipped == q.hist.skipped
  {
    if DrainEnds(q) then CompleteSeq(q, DRAIN, 0) else q
  }

  /** elv_completed_request, for a request that has left the list. */
  function Completed(q: Q, r: Req): Q {
    DrainCheck(q.(inFlight := q.inFlight - B2I(Accounted(q, r)), driver := q.driver - {r},
                  started := q.started - {r}))
  }

  function Proxies(mode: Mode, empty: bool): seq<Req>
    requires !mode.NoOrder?
  {
    (if mode.pre then [PreFlush] else []) + [BarProxy]
    + (if mode.post && !empty then [PostFlush] else [])
  }

  /** The first half of start_ordered: the barrier leaves the list. */
  function TakeBarrier(q: Q): Q
    requires |q.list| > 0 && q.list[0].Rq?
  {
    q.(list := q.list[1..], orig := q.list[0], orderr := 0,
       inFlight := q.inFlight + B2I(Accounted(q, q.list[0])),
       hist := q.hist.(begun := q.hist.begun + 1, trace := [], errs := []))
  }

  function SetSteps(o: Ordseq): set<nat> {
    (if o.drain then {DRAIN} else {}) + (if o.pre then {PREFLUSH} else {})
    + (if o.post then {POSTFLUSH} else {})
  }

  /** The second half: the sequence is stacked at the head of the list. */
  function StackSequence(q: Q): Q
    requires q.orig.Rq? && !q.mode.NoOrder?
  {
    var p := Proxies(q.mode, q.orig.empty);
    var o := Ordseq(true, q.ord.drain || q.mode.Tag? || q.inFlight == 0,
                    q.ord.pre || !q.mode.pre, q.ord.bar,
                    q.ord.post || !(q.mode.post && !q.orig.empty));
    q.(list := p + q.list, soft := q.soft + (set x | x in p),
       started := q.started - (set x | x in p), ord := o,
       hist := q.hist.(skipped := SetSteps(o)))
  }

  /** start_ordered on the barrier at the head of the list. */
  function StartOrdered(q: Q): Q
    requires |q.list| > 0 && q.list[0].Rq? && !q.mode.NoOrder?
  {
    StackSequence(TakeBarrier(q))
  }

  /** QUEUE_ORDERED_NONE: the barrier at the head is refused. */
  function RefuseBarrier(q: Q): Q
    requires |q.list| > 0
  {
    q.(list := q.list[1..], hist := q.hist.(begun := q.hist.begun + 1,
                                            ended := q.hist.ended + [(q.list[0], EOPNOTSUPP)]))
  }

  datatype Verdict = Pass(r: Req) | Blocked | Dropped

  /** blk_do_ordered on the head of the list. */
  function DoOrdered(q: Q): (res: (Q, Verdict))
    requires |q.list| > 0
    ensures res.0.mode == q.mode && res.0.driver == q.driver && res.0.unput == q.unput
    ensures res.1.Pass? ==> |res.0.list| > 0 && res.0.list[0] == res.1.r
  {
    var h := q.list[0];
    if !q.ord.started then
      if !(h.Rq? && IsFs(h) && IsHard(h)) then (q, Pass(h))
      else if q.mode.NoOrder? then
        (RefuseBarrier(q), Dropped)
      else
        var q1 := StartOrdered(q);
        (q1, if !q1.ord.drain then Blocked else Pass(q1.list[0]))
    else if Special(h) then (q, Pass(h))
    else if q.mode.Tag? then
      (q, if Barrier(h) then Blocked else Pass(h))
    else
      (q, if ReqSeq(OrigColor(q), h) > CurSeq(q.ord) then Blocked else Pass(h))
  }

  datatype Outcome = Give(r: Req) | Nothing | Again

  /** end_that_request_last: take the request off the list if it is still there, then run its
      end_io hook or drop the last reference.  For a special request the reference may be
      dropped later (`put` is false). */
  function Complete(q: Q, r: Req, err: int, put: bool): Q {
    var q1 := if r in q.list then Dequeue(q, r) else q;
    match r
    case Rq(_, fs, _, _, _, _) =>
      if fs || put then Completed(q1, r)
      else q1.(driver := q1.driver - {r}, started := q1.started - {r}, unput := q1.unput + 1)
    case _ => CompleteSeq(Completed(q1, r), StepOf(r), err)
  }

  /** elv_dequeue_request */
  function Dequeue(q: Q, r: Req): Q
    requires r in q.list
  {
    q.(list := Remove(q.list, r), driver := q.driver + {r},
       inFlight := q.inFlight + B2I(Accounted(q, r)))
  }

  /** One turn of the loop in elv_next_request on a non-empty list.  An empty barrier's proxy
      is ended on the spot; the driver never sees it. */
  function NextTurn(q: Q): (Q, Outcome)
    requires |q.list| > 0
  {
    var (q1, v) := DoOrdered(q);
    match v
    case Blocked => (q1, Nothing)
    case Dropped => (q1, Again)
    case Pass(r) =>
      if r.BarProxy? && q1.orig.Rq? && q1.orig.empty then (Complete(q1, BarProxy, 0, true), Again)
      else (q1.(started := q1.started + {r}), Give(r))
  }

  /** A bound on the turns left: a barrier is replaced by at most three steps. */
  function Work(l: seq<Req>): nat {
    if l == [] then 0 else (if l[0].Rq? then 4 else 1) + Work(l[1..])
  }

  lemma WorkPush(mode: Mode, empty: bool, l: seq<Req>)
    requires !mode.NoOrder?
    ensures Work(Proxies(mode, empty) + l) <= 3 + Work(l)
  {
    WorkConcat(Proxies(mode, empty), l);
    WorkProxies(Proxies(mode, empty));
  }

  lemma WorkConcat(a: seq<Req>, b: seq<Req>)
    ensures Work(a + b) == Work(a) + Work(b)
  {
    if a == [] {
      assert a + b == b;
    } else {
      assert (a + b)[1..] == a[1..] + b;
    }
  }

  lemma WorkProxies(p: seq<Req>)
    requires forall i :: 0 <= i < |p| ==> !p[i].Rq?
    ensures Work(p) == |p|
  {
  }

  lemma DoOrderedWorks(q: Q)
    requires |q.list| > 0
    ensures Work(DoOrdered(q).0.list) <= Work(q.list)
    ensures DoOrdered(q).1.Dropped? ==> Work(DoOrdered(q).0.list) < Work(q.list)
  {
    if !q.ord.started && q.list[0].Rq? && !q.mode.NoOrder? {
      WorkPush(q.mode, q.list[0].empty, q.list[1..]);
    }
  }

  lemma NextTurnWorks(q: Q)
    requires |q.list| > 0 && NextTurn(q).1.Again?
    ensures Work(NextTurn(q).0.list) < Work(q.list)
  {
    hide DoOrdered;
    DoOrderedWorks(q);
    var q1 := DoOrdered(q).0;
    if DoOrdered(q).1.Pass? {
      assert Remove(q1.list, BarProxy) == q1.list[1..];
    }
  }

  /** elv_next_request on what is in the list.  Nothing is given when the list runs empty or
      its head must wait. */
  function NextRequest(q: Q): (Q, Outcome)
    decreases Work(q.list)
  {
    if q.list == [] then (q, Nothing)
    else
      var (q1, o) := NextTurn(q);
      if o.Again? then NextTurnWorks(q); NextRequest(q1) else (q1, o)
  }

  /** Where a requeued request goes: the front, or its place in a running sequence. */
  function RequeueSlot(q: Q, r: Req): (k: nat)
    ensures k <= |q.list|
  {
    if q.ord.started then Slot(OrigColor(q), q.list, ReqSeq(OrigColor(q), r)) else 0
  }

  function RequeueAt(q: Q, r: Req, k: nat): Q
    requires k <= |q.list|
  {
    q.(inFlight := q.inFlight - B2I(Accounted(q, r)), driver := q.driver - {r},
       started := q.started - {r}, soft := q.soft + {r}, list := InsertAt(q.list, k, r))
  }

  /** elv_requeue_request */
  function Requeue(q: Q, r: Req): Q {
    RequeueAt(q, r, RequeueSlot(q, r))
  }

  /** req_bio_endio on the barrier's proxy: only the error is recorded. */
  function PartialBar(q: Q, err: int): Q {
    q.(orderr := if err != 0 && q.orderr == 0 then err else q.orderr, hist := q.hist.(errs := q.hist.errs + [err]))
  }

  /** The owner of an ended special request drops the last reference. */
  function LatePut(q: Q): Q
    requires q.unput > 0
  {
    DrainCheck(q.(unput := q.unput - 1))
  }

  // ----- runs -----

  datatype Step =
    | SAddFs(hard: bool, empty: bool, sorted: bool)
    | SAddSpecial(hard: bool, front: bool)
    | SDispatch(r: Req, pos: nat)
    | SNext
    | SDequeue(r: Req)
    | SRequeue(r: Req)
    | SComplete(r: Req, err: int, put: bool)
    | SPartialBar(err: int)
    | SLatePut

  /** What the callers respect: the driver dequeues and completes only what it was given,
      requeues only what it dequeued, and back insertion comes after a drained scheduler. */
  predicate Enabled(q: Q, s: Step) {
    match s
    case SAddFs(hard, _, sorted) => (!hard && sorted) || q.sched == {}
    case SAddSpecial(_, front) => front || q.sched == {}
    case SDispatch(r, pos) => r in q.sched && DispatchSlot(q, pos)
    case SNext => |q.list| > 0
    case SDequeue(r) => r in q.list && r in q.started
    case SRequeue(r) => r in q.driver
    case SComplete(r, _, _) => r in q.started
    case SPartialBar(_) => BarProxy in q.started
    case SLatePut => q.unput > 0
  }

  function Apply(q: Q, s: Step): Q
    requires Enabled(q, s)
  {
    match s
    case SAddFs(hard, empty, sorted) => AddFs(q, hard, empty, sorted)
    case SAddSpecial(hard, front) => AddSpecial(q, hard, front)
    case SDispatch(r, pos) => Dispatch(q, r, pos)
    case SNext => NextTurn(q).0
    case SDequeue(r) => Dequeue(q, r)
    case SRequeue(r) => Requeue(q, r)
    case SComplete(r, err, put) => Complete(q, r, err, put)
    case SPartialBar(err) => PartialBar(q, err)
    case SLatePut => LatePut(q)
  }

  /** `run` is a possible history of the queue that starts at `q` and ends at `q1`. */
  predicate Runs(q: Q, run: seq<Step>, q1: Q)
    decreases |run|
  {
    if run == [] then q == q1
    else Enabled(q, run[0]) && Runs(Apply(q, run[0]), run[1..], q1)
  }

  /** No request that is not a file-system request carries REQ_HARDBARRIER. */
  predicate FsBarriersOnly(run: seq<Step>) {
    forall i :: 0 <= i < |run| && run[i].SAddSpecial? ==> !run[i].hard
  }

  /** A run that only dispatches. */
  predicate DispatchRun(run: seq<Step>) {
    forall i :: 0 <= i < |run| ==> run[i].SDispatch?
  }

  /** elv_drain_elevator led from `q` to `q1`. */
  ghost predicate Drained(q: Q, q1: Q) {
    q1.sched == {} && exists run :: DispatchRun(run) && Runs(q, run, q1)
  }

  lemma {:induction false} RunsAppend(q: Q, run: seq<Step>, q1: Q, s: Step)
    requires Runs(q, run, q1) && Enabled(q1, s)
    ensures Runs(q, run + [s], Apply(q1, s))
    decreases |run|
  {
    hide Apply, Enabled;
    if run == [] {
      assert (run + [s])[1..] == [];
      assert Runs(Apply(q1, s), [], Apply(q1, s));
    } else {
      RunsAppend(Apply(q, run[0]), run[1..], q1, s);
      assert (run + [s])[1..] == run[1..] + [s];
    }
  }

  /** Dispatching neither reads nor writes the colour. */
  lemma {:induction false} DispatchIgnoresColour(q: Q, run: seq<Step>, q1: Q, c: bool)
    requires DispatchRun(run) && Runs(q.(ordcolor := c), run, q1)
    ensures Runs(q, run, q1.(ordcolor := q.ordcolor)) && q1.ordcolor == c
    decreases |run|
  {
    if run != [] {
      var q2 := Apply(q.(ordcolor := c), run[0]);
      assert Apply(q, run[0]) == q2.(ordcolor := q.ordcolor);
      assert q2 == Apply(q, run[0]).(ordcolor := c);
      DispatchIgnoresColour(Apply(q, run[0]), run[1..], q1, c);
    }
  }
}

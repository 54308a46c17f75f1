/** The asynchronous chained-IV generator of crypto/chainiv.c as a machine whose steps are the
    single accesses to shared state: each bit operation, each read of the queue length, each
    queue operation, each access to the IV and to the shared error.  Any number of callers and
    any number of runs of the work item interleave.  The child cipher is synchronous. */
module ChainIv {
  import opened Options

  type Iv = seq<bv8>

  const MAX_QLEN: nat := 100
  const EINPROGRESS: int := -115
  const EBUSY: int := -16

  /** A caller is named by its request; a run of the work item by its number. */
  datatype Agent = Caller(r: nat) | Worker(n: nat)

  // Program points.  An agent owns the INUSE bit at the points marked *.
  const FIRST0: nat := 0    //   test_and_set_bit in _givencrypt_first
  const GIV0: nat := 1      //   test_and_set_bit in _givencrypt
  const POST0: nat := 2     //   enqueue under the lock
  const FIRST1: nat := 3    // * is the hook still _givencrypt_first?
  const FIRST2: nat := 4    // * seed from the RNG
  const FIRST3: nat := 5    // * clear_bit
  const GIV1: nat := 6      // * read qlen
  const GIV2: nat := 7      // * clear_bit
  const POST1: nat := 8     //   test_and_set_bit in _postpone_request
  const POST2: nat := 9     // * ctx->err = err
  const WORK0: nat := 10    // * dequeue under the lock
  const TAIL0: nat := 11    // * copy ctx->iv out
  const TAIL1: nat := 12    // * encrypt, ctx->err = result
  const TAIL2: nat := 13    // * copy the new IV in
  const SCHED0: nat := 14   // * err = ctx->err
  const SCHED1: nat := 15   // * read qlen
  const SCHED2: nat := 16   // * clear_bit
  const SCHED3: nat := 17   //   read qlen again
  const SCHED4: nat := 18   //   test_and_set_bit
  const SCHED5: nat := 19   // * schedule_work
  const EXIT: nat := 20     //   return, or complete the job

  /** Where an agent is, the request a work item took from the queue, the error and the IV in
      its local variables.  `own` is history: the result that the agent has to deliver. */
  datatype Pc = Pc(line: nat, job: Option<nat>, own: int, e: int, iv: Iv)

  function At(line: nat): Pc { Pc(line, None, 0, 0, []) }

  predicate Owns(pc: Pc) {
    FIRST1 <= pc.line <= GIV2 || POST2 <= pc.line <= SCHED2 || pc.line == SCHED5
  }

  /** Points whose agent will look at the queue or try the bit before it is done. */
  predicate WillLook(pc: Pc) {
    pc.line == GIV0 || pc.line == POST0 || pc.line == POST1 || pc.line == SCHED3 || pc.line == SCHED4
  }

  /** Points a caller passes before it may enqueue its request. */
  predicate Early(pc: Pc) { pc.line <= GIV2 }

  /** History of ctx->iv: what was there at first, what the RNG put there, its failures, and every
      encryption with the IV it used. */
  datatype Event =
    | Initial(iv: Iv)
    | Seeded(iv: Iv)
    | SeedFailed(req: nat, err: int)
    | Served(req: nat, used: Iv, err: int, next: Iv)

  datatype Holder = Free | By(agent: Agent) | Work

  /** The shared context; `first` is whether the hook is still _givencrypt_first. */
  datatype Mem = Mem(inuse: bool, queue: seq<nat>, pending: bool, err: int, iv: Iv, first: bool)

  /** History of the INUSE bit: its owner, and whether it was last released by a failed seeding
      that left requests queued. */
  datatype Bit = Bit(holder: Holder, stranded: bool)

  /** History of requests: those that entered, how often the work item ran, those accepted by
      the queue and those taken from it. */
  datatype Jobs = Jobs(known: set<nat>, workers: nat, accepted: seq<nat>, taken: seq<nat>)

  /** History of results: what each caller and each job has to get, and what they got. */
  datatype Results = Results(owed: map<nat, int>, result: map<nat, int>,
                             returned: map<nat, int>, completed: map<nat, int>)

  datatype State = State(m: Mem, pcs: map<Agent, Pc>, bit: Bit, events: seq<Event>, j: Jobs,
                         r: Results)

  function Init(iv0: Iv): State {
    State(Mem(false, [], false, 0, iv0, true), map[], Bit(Free, false), [Initial(iv0)],
          Jobs({}, 0, [], []), Results(map[], map[], map[], map[]))
  }

  /** What the environment decides at a step: the RNG's or the cipher's result, and whether
      the request may be backlogged. */
  datatype Choice = Choice(err: int, iv: Iv, backlog: bool)

  function ReqOf(a: Agent, job: Option<nat>): nat {
    if job.Some? then job.value else if a.Caller? then a.r else 0
  }

  function Goto(s: State, a: Agent, pc: Pc): State { s.(pcs := s.pcs[a := pc]) }

  /** test_and_set_bit(CHAINIV_STATE_INUSE): `won` when the bit was clear. */
  function TestAndSet(s: State, a: Agent, won: Pc, lost: Pc): State {
    if s.m.inuse then Goto(s, a, lost)
    else s.(m := s.m.(inuse := true), pcs := s.pcs[a := won], bit := Bit(By(a), false))
  }

  function Clear(s: State, a: Agent, pc: Pc, stranded: bool): State {
    s.(m := s.m.(inuse := false), pcs := s.pcs[a := pc], bit := Bit(Free, stranded))
  }

  /** crypto_enqueue_request with the queue's limit of 100. */
  function Enqueue(s: State, a: Agent, backlog: bool): State {
    var r := ReqOf(a, None);
    var full := |s.m.queue| >= MAX_QLEN;
    var err := if full then EBUSY else EINPROGRESS;
    var into := if full && !backlog then [] else [r];
    s.(m := s.m.(queue := s.m.queue + into), pcs := s.pcs[a := At(POST1).(own := err)],
       j := s.j.(accepted := s.j.accepted + into), r := s.r.(owed := s.r.owed[r := err]))
  }

  /** async_chainiv_givencrypt_first */
  function Enter(s: State, a: Agent, c: Choice): State
    requires a in s.pcs
  {
    var pc := s.pcs[a];
    if pc.line == FIRST0 then TestAndSet(s, a, At(FIRST1), At(GIV0))
    else if pc.line == FIRST1 then
      s.(m := s.m.(first := false), pcs := s.pcs[a := At(if s.m.first then FIRST2 else FIRST3)])
    else if pc.line == FIRST2 then Seed(s, a, c)
    else if pc.e != 0 then Clear(s, a, pc.(line := EXIT), s.m.queue != [])
    else Clear(s, a, At(GIV0), false)
  }

  /** crypto_rng_get_bytes into ctx->iv */
  function Seed(s: State, a: Agent, c: Choice): State {
    if c.err != 0 then
      s.(pcs := s.pcs[a := At(FIRST3).(own := c.err, e := c.err)],
         events := s.events + [SeedFailed(ReqOf(a, None), c.err)],
         r := s.r.(owed := s.r.owed[ReqOf(a, None) := c.err]))
    else
      s.(m := s.m.(iv := c.iv), pcs := s.pcs[a := At(FIRST3)], events := s.events + [Seeded(c.iv)])
  }

  /** async_chainiv_givencrypt up to the tail, and async_chainiv_postpone_request */
  function Postpone(s: State, a: Agent, c: Choice): State
    requires a in s.pcs
  {
    var pc := s.pcs[a];
    if pc.line == GIV0 then TestAndSet(s, a, At(GIV1), At(POST0))
    else if pc.line == GIV1 then Goto(s, a, At(if |s.m.queue| != 0 then GIV2 else TAIL0))
    else if pc.line == GIV2 then Clear(s, a, At(POST0), false)
    else if pc.line == POST0 then Enqueue(s, a, c.backlog)
    else if pc.line == POST1 then
      TestAndSet(s, a, pc.(line := POST2), pc.(line := EXIT, e := pc.own))
    else s.(m := s.m.(err := pc.own), pcs := s.pcs[a := pc.(line := SCHED0)])
  }

  /** The dequeue in async_chainiv_do_postponed, and async_chainiv_givencrypt_tail. */
  function Serve(s: State, a: Agent, c: Choice): State
    requires a in s.pcs
  {
    var pc := s.pcs[a];
    if pc.line == WORK0 then
      if s.m.queue == [] then Goto(s, a, At(SCHED0).(own := s.m.err))
      else
        s.(m := s.m.(queue := s.m.queue[1..]), pcs := s.pcs[a := At(TAIL0).(job := Some(s.m.queue[0]))],
           j := s.j.(taken := s.j.taken + [s.m.queue[0]]))
    else if pc.line == TAIL0 then Goto(s, a, pc.(line := TAIL1, iv := s.m.iv))
    else if pc.line == TAIL1 then Encrypt(s, a, c)
    else s.(m := s.m.(iv := pc.iv), pcs := s.pcs[a := pc.(line := SCHED0)])
  }

  function Encrypt(s: State, a: Agent, c: Choice): State
    requires a in s.pcs
  {
    var pc := s.pcs[a];
    var r := ReqOf(a, pc.job);
    s.(m := s.m.(err := c.err),
       pcs := s.pcs[a := pc.(line := if c.err != 0 then SCHED0 else TAIL2, own := c.err, iv := c.iv)],
       events := s.events + [Served(r, pc.iv, c.err, c.iv)],
       r := if a.Caller? then s.r.(owed := s.r.owed[r := c.err])
            else if pc.job.Some? then s.r.(result := s.r.result[r := c.err]) else s.r)
  }

  /** async_chainiv_schedule_work, and the end of the agent. */
  function Leave(s: State, a: Agent): State
    requires a in s.pcs
  {
    var pc := s.pcs[a];
    if pc.line == SCHED0 then Goto(s, a, pc.(line := SCHED1, e := s.m.err))
    else if pc.line == SCHED1 then
      Goto(s, a, pc.(line := if |s.m.queue| == 0 then SCHED2 else SCHED5))
    else if pc.line == SCHED2 then Clear(s, a, pc.(line := SCHED3), false)
    else if pc.line == SCHED3 then
      Goto(s, a, pc.(line := if |s.m.queue| == 0 then EXIT else SCHED4))
    else if pc.line == SCHED4 then TestAndSet(s, a, pc.(line := SCHED5), pc.(line := EXIT))
    else if pc.line == SCHED5 then
      s.(m := s.m.(pending := true), pcs := s.pcs[a := pc.(line := EXIT)], bit := Bit(Work, false))
    else
      s.(pcs := s.pcs - {a},
         r := if a.Caller? then s.r.(returned := s.r.returned[a.r := pc.e])
              else if pc.job.Some? then s.r.(completed := s.r.completed[pc.job.value := pc.e])
              else s.r)
  }

  /** One step of agent `a`. */
  function Move(s: State, a: Agent, c: Choice): State
    requires a in s.pcs
  {
    var line := s.pcs[a].line;
    if line == FIRST0 || FIRST1 <= line <= FIRST3 then Enter(s, a, c)
    else if line <= POST2 then Postpone(s, a, c)
    else if line <= TAIL2 then Serve(s, a, c)
    else Leave(s, a)
  }

  /** Something that can happen: a new request enters through the hook it found, the work item
      starts to run, or an agent takes its next step. */
  datatype Step = Call(r: nat) | RunWork | Act(a: Agent, c: Choice)

  predicate Enabled(s: State, t: Step) {
    match t
    case Call(r) => r !in s.j.known
    case RunWork => s.m.pending
    case Act(a, _) => a in s.pcs
  }

  function Apply(s: State, t: Step): State
    requires Enabled(s, t)
  {
    match t
    case Call(r) =>
      s.(pcs := s.pcs[Caller(r) := At(if s.m.first then FIRST0 else GIV0)],
         j := s.j.(known := s.j.known + {r}))
    case RunWork =>
      s.(m := s.m.(pending := false), pcs := s.pcs[Worker(s.j.workers) := At(WORK0)],
         bit := Bit(By(Worker(s.j.workers)), false), j := s.j.(workers := s.j.workers + 1))
    case Act(a, c) => Move(s, a, c)
  }

  predicate Runs(s: State, run: seq<Step>, s1: State)
    decreases |run|
  {
    if run == [] then s == s1
    else Enabled(s, run[0]) && Runs(Apply(s, run[0]), run[1..], s1)
  }

  // ----- invariant -----

  /** The INUSE bit is owned by one agent or by the pending work item. */
  ghost predicate Owned(m: Mem, pcs: map<Agent, Pc>, holder: Holder) {
    && (m.inuse <==> holder != Free)
    && (m.pending <==> holder == Work)
    && (forall a :: a in pcs ==> (Owns(pcs[a]) <==> holder == By(a)))
    && (holder.By? ==> holder.agent in pcs)
  }

  ghost predicate SomeoneLooks(pcs: map<Agent, Pc>) { exists a :: a in pcs && WillLook(pcs[a]) }

  /** Queued requests are never forgotten, except by a failed seeding. */
  ghost predicate Attended(m: Mem, pcs: map<Agent, Pc>, stranded: bool) {
    && (m.queue != [] && !m.inuse && !stranded ==> SomeoneLooks(pcs))
    && (stranded ==> m.queue != [] && !m.inuse)
  }

  /** The IV left by the last seeding or successful encryption, or what was there before. */
  function LastIv(events: seq<Event>): Iv {
    if events == [] then []
    else
      match events[|events| - 1]
      case Initial(iv) => iv
      case Seeded(iv) => iv
      case SeedFailed(_, _) => LastIv(events[..|events| - 1])
      case Served(_, _, err, next) => if err == 0 then next else LastIv(events[..|events| - 1])
  }

  ghost predicate UsedLast(events: seq<Event>) {
    forall k :: 0 <= k < |events| && events[k].Served? ==> events[k].used == LastIv(events[..k])
  }

  predicate Storing(pcs: map<Agent, Pc>, holder: Holder) {
    holder.By? && holder.agent in pcs && pcs[holder.agent].line == TAIL2
  }

  /** Every encryption used the IV left by the last success; so will the one in progress, and
      ctx->iv is that IV unless its owner is about to store it. */
  ghost predicate Chained(iv: Iv, pcs: map<Agent, Pc>, holder: Holder, events: seq<Event>) {
    && UsedLast(events)
    && (forall a :: a in pcs && (pcs[a].line == TAIL1 || pcs[a].line == TAIL2) ==>
          pcs[a].iv == LastIv(events))
    && (Storing(pcs, holder) || iv == LastIv(events))
  }

  /** Callers have no job; only callers enqueue and only work items dequeue. */
  ghost predicate Named(pcs: map<Agent, Pc>, j: Jobs, returned: map<nat, int>) {
    && (forall a :: a in pcs ==> pcs[a].line <= EXIT)
    && (forall r: nat :: Caller(r) in pcs ==>
          r in j.known && pcs[Caller(r)].job == None && pcs[Caller(r)].line != WORK0)
    && (forall n: nat :: Worker(n) in pcs ==>
          n < j.workers && pcs[Worker(n)].line >= WORK0
          && (pcs[Worker(n)].line == WORK0 ==> pcs[Worker(n)].job == None))
    && (forall r: nat :: r in j.known <==> r in returned || Caller(r) in pcs)
    && (forall r: nat :: r in returned ==> Caller(r) !in pcs)
  }

  predicate Distinct(l: seq<nat>) { forall i, j :: 0 <= i < j < |l| ==> l[i] != l[j] }

  /** Accepted requests are queued, in the hands of one run of the work item, or completed. */
  ghost predicate Conserved(queue: seq<nat>, pcs: map<Agent, Pc>, j: Jobs, completed: map<nat, int>) {
    && j.accepted == j.taken + queue
    && Distinct(j.accepted)
    && (forall r :: r in j.accepted ==> r in j.known)
    && (forall r: nat :: Caller(r) in pcs && Early(pcs[Caller(r)]) ==> r !in j.accepted)
    && (forall a :: a in pcs && pcs[a].job.Some? ==>
          pcs[a].job.value in j.taken && pcs[a].job.value !in completed)
    && (forall a, b :: a in pcs && b in pcs && a != b && pcs[a].job.Some? ==>
          pcs[a].job != pcs[b].job)
    && (forall r :: r in completed ==> r in j.taken)
    && (forall r :: r in j.taken && r !in completed ==>
          exists a :: a in pcs && pcs[a].job == Some(r))
  }

  /** `own` is the result agent `a` has to deliver. */
  predicate Due(r: Results, a: Agent, job: Option<nat>, own: int) {
    match a
    case Caller(id) => id in r.owed && r.owed[id] == own
    case Worker(_) => job.Some? ==> job.value in r.result && r.result[job.value] == own
  }

  predicate Carries(err: int, r: Results, a: Agent, pc: Pc) {
    && (pc.line == FIRST3 ==> pc.e == pc.own && (pc.e != 0 ==> Due(r, a, None, pc.own)))
    && (POST1 <= pc.line <= POST2 || TAIL2 <= pc.line ==> Due(r, a, pc.job, pc.own))
    && (TAIL2 <= pc.line <= SCHED0 ==> err == pc.own)
    && (pc.line == TAIL2 ==> pc.own == 0)
    && (pc.line > SCHED0 ==> pc.e == pc.own)
  }

  /** Every agent past the point where its result is fixed carries that very result. */
  ghost predicate Honest(err: int, pcs: map<Agent, Pc>, r: Results) {
    && (forall a :: a in pcs ==> Carries(err, r, a, pcs[a]))
    && (forall id :: id in r.returned ==> id in r.owed && r.returned[id] == r.owed[id])
    && (forall id :: id in r.completed ==> id in r.result && r.completed[id] == r.result[id])
  }

  ghost predicate Inv(s: State) {
    && Owned(s.m, s.pcs, s.bit.holder)
    && Attended(s.m, s.pcs, s.bit.stranded)
    && Chained(s.m.iv, s.pcs, s.bit.holder, s.events)
    && Named(s.pcs, s.j, s.r.returned)
    && Conserved(s.m.queue, s.pcs, s.j, s.r.completed)
    && Honest(s.m.err, s.pcs, s.r)
  }

  // ----- the bit -----

  lemma EnterOwned(s: State, a: Agent, c: Choice)
    requires Owned(s.m, s.pcs, s.bit.holder)
    requires a in s.pcs && (s.pcs[a].line == FIRST0 || FIRST1 <= s.pcs[a].line <= FIRST3)
    ensures var s1 := Enter(s, a, c); Owned(s1.m, s1.pcs, s1.bit.holder)
  {
  }

  lemma PostponeOwned(s: State, a: Agent, c: Choice)
    requires Owned(s.m, s.pcs, s.bit.holder)
    requires a in s.pcs && FIRST0 < s.pcs[a].line <= POST2 && !(FIRST1 <= s.pcs[a].line <= FIRST3)
    ensures var s1 := Postpone(s, a, c); Owned(s1.m, s1.pcs, s1.bit.holder)
  {
    hide ReqOf;
  }

  lemma ServeOwned(s: State, a: Agent, c: Choice)
    requires Owned(s.m, s.pcs, s.bit.holder)
    requires a in s.pcs && WORK0 <= s.pcs[a].line <= TAIL2
    ensures var s1 := Serve(s, a, c); Owned(s1.m, s1.pcs, s1.bit.holder)
  {
  }

  lemma LeaveOwned(s: State, a: Agent)
    requires Owned(s.m, s.pcs, s.bit.holder)
    requires a in s.pcs && SCHED0 <= s.pcs[a].line <= EXIT
    ensures var s1 := Leave(s, a); Owned(s1.m, s1.pcs, s1.bit.holder)
  {
  }

  // ----- nobody is forgotten -----

  lemma StillLooks(pcs: map<Agent, Pc>, pcs1: map<Agent, Pc>, a: Agent)
    requires SomeoneLooks(pcs) && a in pcs && !WillLook(pcs[a])
    requires forall b :: b in pcs && b != a ==> b in pcs1 && pcs1[b] == pcs[b]
    ensures SomeoneLooks(pcs1)
  {
    var b :| b in pcs && WillLook(pcs[b]);
    assert b in pcs1 && WillLook(pcs1[b]);
  }

  lemma EnterAttended(s: State, a: Agent, c: Choice)
    requires Owned(s.m, s.pcs, s.bit.holder) && Attended(s.m, s.pcs, s.bit.stranded)
    requires a in s.pcs && (s.pcs[a].line == FIRST0 || FIRST1 <= s.pcs[a].line <= FIRST3)
    ensures var s1 := Enter(s, a, c); Attended(s1.m, s1.pcs, s1.bit.stranded)
  {
    var s1 := Enter(s, a, c);
    if SomeoneLooks(s.pcs) && !WillLook(s.pcs[a]) {
      StillLooks(s.pcs, s1.pcs, a);
    }
    assert a in s1.pcs && WillLook(s1.pcs[a]) ==> SomeoneLooks(s1.pcs);
  }

  lemma PostponeAttended(s: State, a: Agent, c: Choice)
    requires Owned(s.m, s.pcs, s.bit.holder) && Attended(s.m, s.pcs, s.bit.stranded)
    requires a in s.pcs && FIRST0 < s.pcs[a].line <= POST2 && !(FIRST1 <= s.pcs[a].line <= FIRST3)
    ensures var s1 := Postpone(s, a, c); Attended(s1.m, s1.pcs, s1.bit.stranded)
  {
    var s1 := Postpone(s, a, c);
    if SomeoneLooks(s.pcs) && !WillLook(s.pcs[a]) {
      StillLooks(s.pcs, s1.pcs, a);
    }
    assert a in s1.pcs && WillLook(s1.pcs[a]) ==> SomeoneLooks(s1.pcs);
  }

  lemma ServeAttended(s: State, a: Agent, c: Choice)
    requires Owned(s.m, s.pcs, s.bit.holder) && Attended(s.m, s.pcs, s.bit.stranded)
    requires a in s.pcs && WORK0 <= s.pcs[a].line <= TAIL2
    ensures var s1 := Serve(s, a, c); Attended(s1.m, s1.pcs, s1.bit.stranded)
  {
    var s1 := Serve(s, a, c);
    if SomeoneLooks(s.pcs) && !WillLook(s.pcs[a]) {
      StillLooks(s.pcs, s1.pcs, a);
    }
    assert a in s1.pcs && WillLook(s1.pcs[a]) ==> SomeoneLooks(s1.pcs);
  }

  lemma LeaveAttended(s: State, a: Agent)
    requires Owned(s.m, s.pcs, s.bit.holder) && Attended(s.m, s.pcs, s.bit.stranded)
    requires a in s.pcs && SCHED0 <= s.pcs[a].line <= EXIT
    ensures var s1 := Leave(s, a); Attended(s1.m, s1.pcs, s1.bit.stranded)
  {
    var s1 := Leave(s, a);
    if SomeoneLooks(s.pcs) && !WillLook(s.pcs[a]) {
      StillLooks(s.pcs, s1.pcs, a);
    }
    assert a in s1.pcs && WillLook(s1.pcs[a]) ==> SomeoneLooks(s1.pcs);
  }

  // ----- the chain of IVs -----

  lemma ChainGrows(events: seq<Event>, e: Event)
    requires UsedLast(events) && (e.Served? ==> e.used == LastIv(events))
    ensures UsedLast(events + [e])
    ensures LastIv(events + [e]) == match e
                                    case Initial(iv) => iv
                                    case Seeded(iv) => iv
                                    case SeedFailed(_, _) => LastIv(events)
                                    case Served(_, _, err, next) =>
                                      if err == 0 then next else LastIv(events)
  {
    var es := events + [e];
    assert es[..|es| - 1] == events;
    forall k | 0 <= k < |es| && es[k].Served? ensures es[k].used == LastIv(es[..k]) {
      assert k < |events| ==> es[..k] == events[..k];
    }
  }

  lemma EnterChained(s: State, a: Agent, c: Choice)
    requires Owned(s.m, s.pcs, s.bit.holder) && Chained(s.m.iv, s.pcs, s.bit.holder, s.events)
    requires a in s.pcs && (s.pcs[a].line == FIRST0 || FIRST1 <= s.pcs[a].line <= FIRST3)
    ensures var s1 := Enter(s, a, c); Chained(s1.m.iv, s1.pcs, s1.bit.holder, s1.events)
  {
    hide UsedLast, LastIv, Seed;
    if s.pcs[a].line == FIRST2 {
      SeedChained(s, a, c);
    }
  }

  lemma SeedChained(s: State, a: Agent, c: Choice)
    requires Owned(s.m, s.pcs, s.bit.holder) && Chained(s.m.iv, s.pcs, s.bit.holder, s.events)
    requires a in s.pcs && s.pcs[a].line == FIRST2
    ensures var s1 := Seed(s, a, c); Chained(s1.m.iv, s1.pcs, s1.bit.holder, s1.events)
  {
    hide UsedLast, LastIv;
    ChainGrows(s.events, if c.err == 0 then Seeded(c.iv) else SeedFailed(ReqOf(a, None), c.err));
  }

  lemma PostponeChained(s: State, a: Agent, c: Choice)
    requires Owned(s.m, s.pcs, s.bit.holder) && Chained(s.m.iv, s.pcs, s.bit.holder, s.events)
    requires a in s.pcs && FIRST0 < s.pcs[a].line <= POST2 && !(FIRST1 <= s.pcs[a].line <= FIRST3)
    ensures var s1 := Postpone(s, a, c); Chained(s1.m.iv, s1.pcs, s1.bit.holder, s1.events)
  {
    hide UsedLast, LastIv;
  }

  lemma EncryptChained(s: State, a: Agent, c: Choice)
    requires Owned(s.m, s.pcs, s.bit.holder) && Chained(s.m.iv, s.pcs, s.bit.holder, s.events)
    requires a in s.pcs && s.pcs[a].line == TAIL1
    ensures var s1 := Encrypt(s, a, c); Chained(s1.m.iv, s1.pcs, s1.bit.holder, s1.events)
  {
    hide UsedLast, LastIv;
    var s1 := Encrypt(s, a, c);
    ChainGrows(s.events, Served(ReqOf(a, s.pcs[a].job), s.pcs[a].iv, c.err, c.iv));
    assert s.bit.holder == By(a) && s.m.iv == LastIv(s.events);
    assert s1.pcs == s.pcs[a := s1.pcs[a]];
    forall b | b in s1.pcs && (s1.pcs[b].line == TAIL1 || s1.pcs[b].line == TAIL2)
      ensures s1.pcs[b].iv == LastIv(s1.events)
    {
      assert b == a;
    }
  }

  lemma ServeChained(s: State, a: Agent, c: Choice)
    requires Owned(s.m, s.pcs, s.bit.holder) && Chained(s.m.iv, s.pcs, s.bit.holder, s.events)
    requires a in s.pcs && WORK0 <= s.pcs[a].line <= TAIL2
    ensures var s1 := Serve(s, a, c); Chained(s1.m.iv, s1.pcs, s1.bit.holder, s1.events)
  {
    if s.pcs[a].line == TAIL1 {
      EncryptChained(s, a, c);
    } else {
      hide UsedLast, LastIv, Encrypt;
      assert s.bit.holder == By(a);
    }
  }

  lemma LeaveChained(s: State, a: Agent)
    requires Owned(s.m, s.pcs, s.bit.holder) && Chained(s.m.iv, s.pcs, s.bit.holder, s.events)
    requires a in s.pcs && SCHED0 <= s.pcs[a].line <= EXIT
    ensures var s1 := Leave(s, a); Chained(s1.m.iv, s1.pcs, s1.bit.holder, s1.events)
  {
    hide LastIv;
  }

  // ----- names -----

  lemma NamedGoto(pcs: map<Agent, Pc>, j: Jobs, j1: Jobs, returned: map<nat, int>, a: Agent, pc: Pc)
    requires Named(pcs, j, returned) && a in pcs && pc.line <= EXIT
    requires j1.known == j.known && j1.workers == j.workers
    requires a.Caller? ==> pc.job == None && pc.line != WORK0
    requires a.Worker? ==> pc.line > WORK0
    ensures Named(pcs[a := pc], j1, returned)
  {
  }

  lemma NamedExit(pcs: map<Agent, Pc>, j: Jobs, returned: map<nat, int>, a: Agent, e: int)
    requires Named(pcs, j, returned) && a in pcs
    ensures Named(pcs - {a}, j, if a.Caller? then returned[a.r := e] else returned)
  {
  }

  lemma NamedAt(s: State, a: Agent)
    requires Named(s.pcs, s.j, s.r.returned) && a in s.pcs
    ensures s.pcs[a].line <= EXIT
    ensures a.Caller? ==> a.r in s.j.known && s.pcs[a].job == None && s.pcs[a].line != WORK0
    ensures a.Worker? ==> s.pcs[a].line >= WORK0
    ensures s.pcs[a].line <= WORK0 && a.Worker? ==> s.pcs[a].job == None
  {
  }

  lemma EnterNamed(s: State, a: Agent, c: Choice)
    requires Named(s.pcs, s.j, s.r.returned)
    requires a in s.pcs && (s.pcs[a].line == FIRST0 || FIRST1 <= s.pcs[a].line <= FIRST3)
    ensures var s1 := Enter(s, a, c); Named(s1.pcs, s1.j, s1.r.returned)
  {
    hide Named;
    var s1 := Enter(s, a, c);
    NamedAt(s, a);
    assert s1.pcs == s.pcs[a := s1.pcs[a]];
    NamedGoto(s.pcs, s.j, s1.j, s.r.returned, a, s1.pcs[a]);
  }

  lemma PostponeNamed(s: State, a: Agent, c: Choice)
    requires Named(s.pcs, s.j, s.r.returned)
    requires a in s.pcs && FIRST0 < s.pcs[a].line <= POST2 && !(FIRST1 <= s.pcs[a].line <= FIRST3)
    ensures var s1 := Postpone(s, a, c); Named(s1.pcs, s1.j, s1.r.returned)
  {
    hide Named;
    var s1 := Postpone(s, a, c);
    NamedAt(s, a);
    assert s1.pcs == s.pcs[a := s1.pcs[a]];
    NamedGoto(s.pcs, s.j, s1.j, s.r.returned, a, s1.pcs[a]);
  }

  lemma ServeNamed(s: State, a: Agent, c: Choice)
    requires Named(s.pcs, s.j, s.r.returned)
    requires a in s.pcs && WORK0 <= s.pcs[a].line <= TAIL2
    ensures var s1 := Serve(s, a, c); Named(s1.pcs, s1.j, s1.r.returned)
  {
    hide Named;
    var s1 := Serve(s, a, c);
    NamedAt(s, a);
    assert s1.pcs == s.pcs[a := s1.pcs[a]];
    NamedGoto(s.pcs, s.j, s1.j, s.r.returned, a, s1.pcs[a]);
  }

  lemma LeaveNamed(s: State, a: Agent)
    requires Named(s.pcs, s.j, s.r.returned)
    requires a in s.pcs && SCHED0 <= s.pcs[a].line <= EXIT
    ensures var s1 := Leave(s, a); Named(s1.pcs, s1.j, s1.r.returned)
  {
    hide Named;
    var s1 := Leave(s, a);
    NamedAt(s, a);
    if s.pcs[a].line == EXIT {
      NamedExit(s.pcs, s.j, s.r.returned, a, s.pcs[a].e);
    } else {
      assert s1.pcs == s.pcs[a := s1.pcs[a]];
      NamedGoto(s.pcs, s.j, s1.j, s.r.returned, a, s1.pcs[a]);
    }
  }

  // ----- requests are conserved -----

  lemma ConservedGoto(queue: seq<nat>, pcs: map<Agent, Pc>, j: Jobs, completed: map<nat, int>,
                      a: Agent, pc: Pc)
    requires Conserved(queue, pcs, j, completed) && a in pcs
    requires pc.job == pcs[a].job && (a.Caller? && Early(pc) ==> Early(pcs[a]))
    ensures Conserved(queue, pcs[a := pc], j, completed)
  {
    var pcs1 := pcs[a := pc];
    forall r | r in j.taken && r !in completed ensures exists b :: b in pcs1 && pcs1[b].job == Some(r) {
      var b :| b in pcs && pcs[b].job == Some(r);
      assert b in pcs1 && pcs1[b].job == Some(r);
    }
  }

  /** A caller's request joins the queue. */
  lemma ConservedAccept(queue: seq<nat>, pcs: map<Agent, Pc>, j: Jobs, completed: map<nat, int>,
                        r: nat)
    requires Conserved(queue, pcs, j, completed) && r in j.known && r !in j.accepted
    requires Caller(r) in pcs && !Early(pcs[Caller(r)])
    ensures Conserved(queue + [r], pcs, j.(accepted := j.accepted + [r]), completed)
  {
    assert j.taken + (queue + [r]) == j.taken + queue + [r];
  }

  /** A run of the work item takes the first request of the queue. */
  lemma ConservedTake(queue: seq<nat>, pcs: map<Agent, Pc>, j: Jobs, completed: map<nat, int>,
                      a: Agent, pc: Pc)
    requires Conserved(queue, pcs, j, completed) && queue != []
    requires a in pcs && pcs[a].job == None && pc.job == Some(queue[0]) && !Early(pc)
    ensures Conserved(queue[1..], pcs[a := pc], j.(taken := j.taken + [queue[0]]), completed)
  {
    hide Early;
    var r := queue[0];
    var pcs1 := pcs[a := pc];
    assert j.taken + queue == (j.taken + [r]) + queue[1..];
    assert j.accepted[|j.taken|] == r;
    assert forall i :: 0 <= i < |j.taken| ==> j.accepted[i] == j.taken[i];
    assert r !in j.taken;
    forall q | q in j.taken + [r] && q !in completed
      ensures exists b :: b in pcs1 && pcs1[b].job == Some(q)
    {
      if q == r {
        assert pcs1[a].job == Some(q);
      } else {
        var b :| b in pcs && pcs[b].job == Some(q);
        assert b in pcs1 && pcs1[b].job == Some(q);
      }
    }
  }

  lemma ConservedExit(queue: seq<nat>, pcs: map<Agent, Pc>, j: Jobs, completed: map<nat, int>,
                      a: Agent, e: int)
    requires Conserved(queue, pcs, j, completed) && a in pcs
    ensures var job := pcs[a].job;
            Conserved(queue, pcs - {a}, j, if job.Some? then completed[job.value := e] else completed)
  {
    var pcs1 := pcs - {a};
    var job := pcs[a].job;
    forall q | q in j.taken && q !in completed && job != Some(q)
      ensures exists b :: b in pcs1 && pcs1[b].job == Some(q)
    {
      var b :| b in pcs && pcs[b].job == Some(q);
      assert b in pcs1 && pcs1[b].job == Some(q);
    }
  }

  lemma EnterConserved(s: State, a: Agent, c: Choice)
    requires Named(s.pcs, s.j, s.r.returned) && Conserved(s.m.queue, s.pcs, s.j, s.r.completed)
    requires a in s.pcs && (s.pcs[a].line == FIRST0 || FIRST1 <= s.pcs[a].line <= FIRST3)
    ensures var s1 := Enter(s, a, c); Conserved(s1.m.queue, s1.pcs, s1.j, s1.r.completed)
  {
    hide Named, Conserved;
    var s1 := Enter(s, a, c);
    NamedAt(s, a);
    assert s1.pcs == s.pcs[a := s1.pcs[a]];
    ConservedGoto(s.m.queue, s.pcs, s.j, s.r.completed, a, s1.pcs[a]);
  }

  lemma PostponeConserved(s: State, a: Agent, c: Choice)
    requires Named(s.pcs, s.j, s.r.returned) && Conserved(s.m.queue, s.pcs, s.j, s.r.completed)
    requires a in s.pcs && FIRST0 < s.pcs[a].line <= POST2 && !(FIRST1 <= s.pcs[a].line <= FIRST3)
    ensures var s1 := Postpone(s, a, c); Conserved(s1.m.queue, s1.pcs, s1.j, s1.r.completed)
  {
    hide Named, Conserved;
    var s1 := Postpone(s, a, c);
    NamedAt(s, a);
    assert s1.pcs == s.pcs[a := s1.pcs[a]];
    ConservedGoto(s.m.queue, s.pcs, s.j, s.r.completed, a, s1.pcs[a]);
    if s.pcs[a].line == POST0 && s1.m.queue != s.m.queue {
      EarlyNew(s, a);
      ConservedAccept(s.m.queue, s1.pcs, s.j, s.r.completed, a.r);
    } else {
      assert s1.j == s.j;
    }
  }

  lemma EarlyNew(s: State, a: Agent)
    requires Conserved(s.m.queue, s.pcs, s.j, s.r.completed) && a in s.pcs && Early(s.pcs[a])
    ensures a.Caller? ==> a.r !in s.j.accepted
  {
  }

  lemma ServeConserved(s: State, a: Agent, c: Choice)
    requires Named(s.pcs, s.j, s.r.returned) && Conserved(s.m.queue, s.pcs, s.j, s.r.completed)
    requires a in s.pcs && WORK0 <= s.pcs[a].line <= TAIL2
    ensures var s1 := Serve(s, a, c); Conserved(s1.m.queue, s1.pcs, s1.j, s1.r.completed)
  {
    hide Named, Conserved;
    var s1 := Serve(s, a, c);
    NamedAt(s, a);
    assert s1.pcs == s.pcs[a := s1.pcs[a]];
    if s.pcs[a].line == WORK0 && s.m.queue != [] {
      ConservedTake(s.m.queue, s.pcs, s.j, s.r.completed, a, s1.pcs[a]);
    } else {
      ConservedGoto(s.m.queue, s.pcs, s.j, s.r.completed, a, s1.pcs[a]);
    }
  }

  lemma LeaveConserved(s: State, a: Agent)
    requires Named(s.pcs, s.j, s.r.returned) && Conserved(s.m.queue, s.pcs, s.j, s.r.completed)
    requires a in s.pcs && SCHED0 <= s.pcs[a].line <= EXIT
    ensures var s1 := Leave(s, a); Conserved(s1.m.queue, s1.pcs, s1.j, s1.r.completed)
  {
    hide Named, Conserved;
    var s1 := Leave(s, a);
    NamedAt(s, a);
    if s.pcs[a].line == EXIT {
      ConservedExit(s.m.queue, s.pcs, s.j, s.r.completed, a, s.pcs[a].e);
    } else {
      assert s1.pcs == s.pcs[a := s1.pcs[a]];
      ConservedGoto(s.m.queue, s.pcs, s.j, s.r.completed, a, s1.pcs[a]);
    }
  }

  // ----- everyone gets its own result -----

  lemma HonestGoto(err: int, pcs: map<Agent, Pc>, r: Results, a: Agent, pc: Pc)
    requires Honest(err, pcs, r) && Carries(err, r, a, pc)
    ensures Honest(err, pcs[a := pc], r)
  {
    hide Carries;
  }

  /** The owner of the bit changes ctx->err. */
  lemma HonestErr(m: Mem, err: int, pcs: map<Agent, Pc>, holder: Holder, r: Results, a: Agent, pc: Pc)
    requires Owned(m, pcs, holder) && holder == By(a)
    requires Honest(m.err, pcs, r) && Carries(err, r, a, pc)
    ensures Honest(err, pcs[a := pc], r)
  {
    hide Due;
    forall b | b in pcs && b != a ensures Carries(err, r, b, pcs[b]) {
      assert Carries(m.err, r, b, pcs[b]) && !Owns(pcs[b]);
    }
  }

  /** The result owed to a caller that has not returned is fixed. */
  lemma HonestOwed(err: int, pcs: map<Agent, Pc>, r: Results, id: nat, own: int, pc: Pc)
    requires Honest(err, pcs, r) && id !in r.returned
    requires Carries(err, r.(owed := r.owed[id := own]), Caller(id), pc)
    ensures Honest(err, pcs[Caller(id) := pc], r.(owed := r.owed[id := own]))
  {
    var r1 := r.(owed := r.owed[id := own]);
    forall b | b in pcs && b != Caller(id) ensures Carries(err, r1, b, pcs[b]) {
      assert Carries(err, r, b, pcs[b]);
      assert forall job, o :: Due(r1, b, job, o) <==> Due(r, b, job, o);
    }
  }

  /** The result of a job in the hands of a run of the work item is fixed. */
  lemma HonestResult(err: int, pcs: map<Agent, Pc>, r: Results, a: Agent, id: nat, own: int, pc: Pc)
    requires Honest(err, pcs, r) && id !in r.completed && a.Worker?
    requires forall b :: b in pcs && b != a ==> pcs[b].job != Some(id)
    requires Carries(err, r.(result := r.result[id := own]), a, pc)
    ensures Honest(err, pcs[a := pc], r.(result := r.result[id := own]))
  {
    var r1 := r.(result := r.result[id := own]);
    forall b | b in pcs && b != a ensures Carries(err, r1, b, pcs[b]) {
      assert Carries(err, r, b, pcs[b]);
      assert forall o :: Due(r1, b, pcs[b].job, o) <==> Due(r, b, pcs[b].job, o);
      assert forall o :: Due(r1, b, None, o) <==> Due(r, b, None, o);
    }
  }

  lemma HonestExit(err: int, pcs: map<Agent, Pc>, r: Results, a: Agent)
    requires Honest(err, pcs, r) && a in pcs && pcs[a].line == EXIT
    requires a.Caller? ==> pcs[a].job == None
    ensures Honest(err, pcs - {a}, r)
    ensures a.Caller? ==> Honest(err, pcs - {a}, r.(returned := r.returned[a.r := pcs[a].e]))
    ensures a.Worker? && pcs[a].job.Some? ==>
              Honest(err, pcs - {a}, r.(completed := r.completed[pcs[a].job.value := pcs[a].e]))
  {
    assert Carries(err, r, a, pcs[a]);
    var r1 := r.(returned := if a.Caller? then r.returned[a.r := pcs[a].e] else r.returned);
    var r2 := r.(completed := if pcs[a].job.Some? then r.completed[pcs[a].job.value := pcs[a].e]
                              else r.completed);
    forall b | b in pcs ensures Carries(err, r1, b, pcs[b]) && Carries(err, r2, b, pcs[b]) {
      assert Carries(err, r, b, pcs[b]);
      assert forall job, o :: Due(r1, b, job, o) <==> Due(r, b, job, o);
      assert forall job, o :: Due(r2, b, job, o) <==> Due(r, b, job, o);
    }
  }

  lemma HonestAt(s: State, a: Agent)
    requires Named(s.pcs, s.j, s.r.returned) && Honest(s.m.err, s.pcs, s.r) && a in s.pcs
    ensures Carries(s.m.err, s.r, a, s.pcs[a])
    ensures a.Caller? ==> a.r !in s.r.returned
  {
  }

  lemma EnterHonest(s: State, a: Agent, c: Choice)
    requires Named(s.pcs, s.j, s.r.returned) && Honest(s.m.err, s.pcs, s.r)
    requires a in s.pcs && (s.pcs[a].line == FIRST0 || FIRST1 <= s.pcs[a].line <= FIRST3)
    ensures var s1 := Enter(s, a, c); Honest(s1.m.err, s1.pcs, s1.r)
  {
    hide Honest, Named;
    var s1 := Enter(s, a, c);
    NamedAt(s, a);
    HonestAt(s, a);
    assert s1.pcs == s.pcs[a := s1.pcs[a]];
    if s.pcs[a].line == FIRST2 && c.err != 0 {
      HonestOwed(s.m.err, s.pcs, s.r, a.r, c.err, s1.pcs[a]);
    } else {
      HonestGoto(s.m.err, s.pcs, s.r, a, s1.pcs[a]);
    }
  }

  lemma PostponeHonest(s: State, a: Agent, c: Choice)
    requires Owned(s.m, s.pcs, s.bit.holder) && Named(s.pcs, s.j, s.r.returned) && Honest(s.m.err, s.pcs, s.r)
    requires a in s.pcs && FIRST0 < s.pcs[a].line <= POST2 && !(FIRST1 <= s.pcs[a].line <= FIRST3)
    ensures var s1 := Postpone(s, a, c); Honest(s1.m.err, s1.pcs, s1.r)
  {
    hide Honest, Named;
    var s1 := Postpone(s, a, c);
    NamedAt(s, a);
    HonestAt(s, a);
    assert s1.pcs == s.pcs[a := s1.pcs[a]];
    if s.pcs[a].line == POST0 {
      HonestOwed(s.m.err, s.pcs, s.r, a.r, s1.pcs[a].own, s1.pcs[a]);
    } else if s.pcs[a].line == POST2 {
      HonestErr(s.m, s1.m.err, s.pcs, s.bit.holder, s.r, a, s1.pcs[a]);
    } else {
      HonestGoto(s.m.err, s.pcs, s.r, a, s1.pcs[a]);
    }
  }

  lemma JobsAlone(s: State, a: Agent)
    requires Conserved(s.m.queue, s.pcs, s.j, s.r.completed) && a in s.pcs && s.pcs[a].job.Some?
    ensures s.pcs[a].job.value !in s.r.completed
    ensures forall b :: b in s.pcs && b != a ==> s.pcs[b].job != s.pcs[a].job
  {
  }

  lemma EncryptHonest(s: State, a: Agent, c: Choice)
    requires Owned(s.m, s.pcs, s.bit.holder) && Named(s.pcs, s.j, s.r.returned)
    requires Conserved(s.m.queue, s.pcs, s.j, s.r.completed) && Honest(s.m.err, s.pcs, s.r)
    requires a in s.pcs && s.pcs[a].line == TAIL1
    ensures var s1 := Encrypt(s, a, c); Honest(s1.m.err, s1.pcs, s1.r)
  {
    hide Honest, Named, Conserved;
    var s1 := Encrypt(s, a, c);
    var pc := s.pcs[a];
    NamedAt(s, a);
    HonestAt(s, a);
    assert s.bit.holder == By(a) by { assert Owns(pc); }
    HonestErr(s.m, c.err, s.pcs, s.bit.holder, s.r, a, pc);
    assert s.pcs[a := pc] == s.pcs;
    if a.Caller? {
      HonestOwed(c.err, s.pcs, s.r, a.r, c.err, s1.pcs[a]);
    } else if pc.job.Some? {
      JobsAlone(s, a);
      HonestResult(c.err, s.pcs, s.r, a, pc.job.value, c.err, s1.pcs[a]);
    } else {
      HonestGoto(c.err, s.pcs, s.r, a, s1.pcs[a]);
    }
  }

  lemma ServeHonest(s: State, a: Agent, c: Choice)
    requires Owned(s.m, s.pcs, s.bit.holder) && Named(s.pcs, s.j, s.r.returned)
    requires Conserved(s.m.queue, s.pcs, s.j, s.r.completed) && Honest(s.m.err, s.pcs, s.r)
    requires a in s.pcs && WORK0 <= s.pcs[a].line <= TAIL2
    ensures var s1 := Serve(s, a, c); Honest(s1.m.err, s1.pcs, s1.r)
  {
    if s.pcs[a].line == TAIL1 {
      EncryptHonest(s, a, c);
    } else {
      hide Honest, Named, Conserved, Owned, Encrypt;
      var s1 := Serve(s, a, c);
      NamedAt(s, a);
      HonestAt(s, a);
      assert s1.pcs == s.pcs[a := s1.pcs[a]];
      HonestGoto(s.m.err, s.pcs, s.r, a, s1.pcs[a]);
    }
  }

  lemma LeaveHonest(s: State, a: Agent)
    requires Named(s.pcs, s.j, s.r.returned) && Honest(s.m.err, s.pcs, s.r)
    requires a in s.pcs && SCHED0 <= s.pcs[a].line <= EXIT
    ensures var s1 := Leave(s, a); Honest(s1.m.err, s1.pcs, s1.r)
  {
    hide Honest, Named, Due;
    var s1 := Leave(s, a);
    NamedAt(s, a);
    HonestAt(s, a);
    if s.pcs[a].line == EXIT {
      HonestExit(s.m.err, s.pcs, s.r, a);
    } else {
      assert s1.pcs == s.pcs[a := s1.pcs[a]];
      HonestGoto(s.m.err, s.pcs, s.r, a, s1.pcs[a]);
    }
  }

}

/** The request queue as the code runs it: the fields of struct request_queue updated in place, and
    loops over the dispatch list, as in block/elevator.c and block/blk-barrier.c.  `State()` is
    the value of OrderedQueue that the object stands for, and every method says which step of
    OrderedQueue it performs on it, so that what is proved there over runs holds of every
    sequence of calls. */
module RequestQueue {
  import opened Lists
  import opened OrderedQueue

  class Queue {
    const mode: Mode
    var list: seq<Req>
    var sched: set<Req>
    var driver: set<Req>
    var started: set<Req>
    var soft: set<Req>
    var inFlight: int
    var ordcolor: bool
    var ord: Ordseq
    var orig: Req
    var orderr: int
    var bars: seq<Req>
    var nextId: nat
    var unput: nat
    ghost var hist: History

    ghost function State(): Q
      reads this
    {
      Q(mode, list, sched, driver, started, soft, inFlight, ordcolor, ord, orig, orderr, bars,
        nextId, unput, hist)
    }

    constructor (mode: Mode)
      ensures State() == Init(mode)
    {
      this.mode := mode;
      list, sched, driver, started, soft := [], {}, {}, {}, {};
      inFlight, ordcolor, ord, orig, orderr := 0, false, IDLE, PreFlush, 0;
      bars, nextId, unput := [], 0, 0;
      hist := History(0, [], {}, [], []);
    }

    // ----- elevator.c: adding requests -----

    /** elv_drain_elevator, with a scheduler that dispatches to the tail. */
    method DrainElevator()
      modifies this`sched, this`list
      ensures Drained(old(State()), State())
    {
      hide NextTurn, Complete, AddFs, AddSpecial, LatePut, Dequeue;
      ghost var q0 := State();
      ghost var run: seq<Step> := [];
      while sched != {}
        invariant DispatchRun(run) && Runs(q0, run, State())
        decreases sched
      {
        ghost var q := State();
        var r :| r in sched;
        sched, list := sched - {r}, list + [r];
        assert InsertAt(q.list, |q.list|, r) == list;
        RunsAppend(q0, run, q, SDispatch(r, |q.list|));
        run := run + [SDispatch(r, |q.list|)];
      }
    }

    /** The drain of a back insertion, after the colour may have been toggled. */
    method DrainBehind(ghost q0: Q)
      requires q0 == State().(ordcolor := q0.ordcolor)
      modifies this`sched, this`list
      ensures Drained(q0, State().(ordcolor := q0.ordcolor))
    {
      DrainElevator();
      ghost var c := ordcolor;
      ghost var run :| DispatchRun(run) && Runs(old(State()), run, State());
      assert q0.(ordcolor := c) == old(State());
      DispatchIgnoresColour(q0, run, State(), c);
    }

    /** __elv_add_request with elv_insert(..., ELEVATOR_INSERT_SORT). */
    method AddSorted(empty: bool)
      modifies this`sched, this`nextId
      ensures State() == AddFs(old(State()), false, empty, true)
    {
      sched := sched + {Rq(nextId, true, false, empty, ordcolor, |bars|)};
      nextId := nextId + 1;
    }

    /** __elv_add_request with elv_insert(..., ELEVATOR_INSERT_BACK): barriers, and other
        file-system requests that bypass the scheduler. */
    method AddBack(hard: bool, empty: bool) returns (ghost q: Q)
      modifies this`list, this`sched, this`soft, this`ordcolor, this`bars, this`nextId
      ensures Drained(old(State()), q) && State() == AddFs(q, hard, empty, false)
    {
      var r := Rq(nextId, true, hard, empty, ordcolor, |bars|);
      ordcolor := if hard then !ordcolor else ordcolor;
      DrainBehind(old(State()));
      q := State().(ordcolor := old(ordcolor));
      PutLast(q, r, hard);
    }

    method PutLast(ghost q: Q, r: Req, hard: bool)
      requires State() == q.(ordcolor := if hard then !q.ordcolor else q.ordcolor)
      modifies this`list, this`soft, this`bars, this`nextId
      ensures State() == AppendFs(q, r, hard)
    {
      soft := soft + {r};
      list := list + [r];
      bars := if hard then bars + [r] else bars;
      nextId := nextId + 1;
    }

    /** __elv_add_request for a request that is not a file-system request. */
    method AddSpecialBack(hard: bool) returns (ghost q: Q)
      modifies this`list, this`sched, this`soft, this`ordcolor, this`nextId
      ensures Drained(old(State()), q) && State() == AddSpecial(q, hard, false)
    {
      hide Runs;
      var r := Rq(nextId, false, hard, false, ordcolor, |bars|);
      ordcolor := if hard then !ordcolor else ordcolor;
      DrainBehind(old(State()));
      q := State().(ordcolor := old(ordcolor));
      soft := soft + {r};
      list := list + [r];
      nextId := nextId + 1;
    }

    method AddSpecialFront(hard: bool)
      modifies this`list, this`soft, this`ordcolor, this`nextId
      ensures State() == AddSpecial(old(State()), hard, true)
    {
      var r := Rq(nextId, false, hard, false, ordcolor, |bars|);
      ordcolor := if hard then !ordcolor else ordcolor;
      soft := soft + {r};
      list := [r] + list;
      nextId := nextId + 1;
    }

    // ----- blk-barrier.c -----

    method RecordStep(step: nat, err: int)
      modifies this`orderr, this`ord, this`hist
      ensures State() == NoteStep(old(State()), step, err)
    {
      if err != 0 && orderr == 0 { orderr := err; }
      ord := SetBit(ord, step);
      hist := hist.(trace := hist.trace + [step], errs := hist.errs + [err]);
    }

    /** blk_ordered_complete_seq */
    method OrderedCompleteSeq(step: nat, err: int)
      modifies this`orderr, this`ord, this`hist
      ensures State() == CompleteSeq(old(State()), step, err)
    {
      RecordStep(step, err);
      if CurSeq(ord) == DONE {
        ord := IDLE;
        hist := hist.(ended := hist.ended + [(orig, orderr)]);
      }
    }

    /** elv_insert with ELEVATOR_INSERT_FRONT, of an embedded request fresh from blk_rq_init. */
    method PushProxy(p: Req)
      modifies this`list, this`soft, this`started
      ensures list == [p] + old(list) && soft == old(soft) + {p} && started == old(started) - {p}
    {
      started := started - {p};
      soft := soft + {p};
      list := [p] + list;
    }

    /** start_ordered up to the barrier leaving the list. */
    method BeginSequence()
      requires |list| > 0 && list[0].Rq?
      modifies this`list, this`inFlight, this`orig, this`orderr, this`hist
      ensures State() == TakeBarrier(old(State()))
    {
      var h := list[0];
      orderr := 0;
      inFlight := inFlight + B2I(h in started && IsFs(h));
      list := list[1..];
      orig := h;
      hist := hist.(begun := hist.begun + 1, trace := [], errs := []);
    }

    /** The part of start_ordered that stacks the sequence at the head, last step first. */
    method PushSteps()
      requires orig.Rq? && !mode.NoOrder?
      modifies this`list, this`soft, this`started
      ensures list == Proxies(mode, orig.empty) + old(list)
      ensures soft == old(soft) + (set x | x in Proxies(mode, orig.empty))
      ensures started == old(started) - (set x | x in Proxies(mode, orig.empty))
    {
      hide Proxies;
      StepsPushed(mode, orig.empty, list, soft, started);
      if mode.post && !orig.empty { PushProxy(PostFlush); }
      PushProxy(BarProxy);
      if mode.pre { PushProxy(PreFlush); }
    }

    /** The same part of start_ordered with the bits of the steps that are skipped. */
    method PushSequence()
      requires orig.Rq? && !mode.NoOrder?
      modifies this`list, this`soft, this`started, this`ord, this`hist
      ensures State() == StackSequence(old(State()))
    {
      hide Proxies, SetSteps;
      PushSteps();
      ord := Ordseq(true, ord.drain || mode.Tag? || inFlight == 0, ord.pre || !mode.pre, ord.bar,
                    ord.post || !(mode.post && !orig.empty));
      hist := hist.(skipped := SetSteps(ord));
    }

    /** start_ordered.  A request is passed on unless the queue must drain first. */
    method Start() returns (v: Verdict)
      requires |list| > 0 && list[0].Rq? && !mode.NoOrder?
      modifies this
      ensures State() == StartOrdered(old(State()))
      ensures v == if ord.drain then Pass(list[0]) else Blocked
    {
      BeginSequence();
      PushSequence();
      v := if ord.drain then Pass(list[0]) else Blocked;
    }

    /** blk_do_ordered on the head of the list. */
    method Ordered() returns (v: Verdict)
      requires |list| > 0
      modifies this
      ensures (State(), v) == DoOrdered(old(State()))
    {
      var h := list[0];
      if !ord.started {
        if !(h.Rq? && IsFs(h) && IsHard(h)) {
          v := Pass(h);
        } else if !mode.NoOrder? {
          v := Start();
        } else {
          list := list[1..];
          hist := hist.(begun := hist.begun + 1, ended := hist.ended + [(h, EOPNOTSUPP)]);
          v := Dropped;
        }
      } else if Special(h) {
        v := Pass(h);
      } else if mode.Tag? {
        v := if Barrier(h) then Blocked else Pass(h);
      } else {
        var color := orig.Rq? && orig.color;
        v := if ReqSeq(color, h) > CurSeq(ord) then Blocked else Pass(h);
      }
    }

    // ----- elevator.c: the driver's side -----

    /** list_del: the list without its first occurrence of `r`. */
    method Unlink(r: Req)
      requires r in list
      modifies this`list
      ensures list == Remove(old(list), r)
    {
      var k := 0;
      while list[k] != r
        invariant 0 <= k < |list| && list == old(list) && r in list[k..]
        invariant Index(list, r) == k + Index(list[k..], r)
        decreases |list| - k
      {
        assert list[k..][1..] == list[k + 1..];
        k := k + 1;
      }
      list := list[..k] + list[k + 1..];
    }

    /** elv_dequeue_request */
    method DequeueRequest(r: Req)
      requires r in list
      modifies this`list, this`driver, this`inFlight
      ensures State() == Dequeue(old(State()), r)
    {
      Unlink(r);
      driver := driver + {r};
      inFlight := inFlight + B2I(r in started && IsFs(r));
    }

    /** elv_completed_request */
    method CompletedRequest(r: Req)
      modifies this
      ensures State() == Completed(old(State()), r)
    {
      inFlight := inFlight - B2I(r in started && IsFs(r));
      driver, started := driver - {r}, started - {r};
      CheckDrained();
    }

    method CheckDrained()
      modifies this`orderr, this`ord, this`hist
      ensures State() == DrainCheck(old(State()))
    {
      if ord.started && |list| > 0 {
        var first := list[0];
        if inFlight == 0 && CurSeq(ord) == DRAIN
           && ReqSeq(orig.Rq? && orig.color, first) > DRAIN {
          OrderedCompleteSeq(DRAIN, 0);
        }
      }
    }

    /** end_that_request_last with the end_io hook of the request. */
    method EndRequest(r: Req, err: int, put: bool)
      modifies this
      ensures State() == Complete(old(State()), r, err, put)
    {
      if r in list { DequeueRequest(r); }
      match r
      case Rq(_, fs, _, _, _, _) =>
        if fs || put {
          CompletedRequest(r);
        } else {
          driver, started, unput := driver - {r}, started - {r}, unput + 1;
        }
      case PreFlush =>
        CompletedRequest(r);
        OrderedCompleteSeq(PREFLUSH, err);
      case BarProxy =>
        CompletedRequest(r);
        OrderedCompleteSeq(BAR, err);
      case PostFlush =>
        CompletedRequest(r);
        OrderedCompleteSeq(POSTFLUSH, err);
    }

    /** elv_next_request on what is in the list. */
    method Next() returns (o: Outcome)
      modifies this
      ensures (State(), o) == NextRequest(old(State()))
    {
      ghost var q0 := State();
      while list != []
        invariant NextRequest(State()) == NextRequest(q0)
        decreases Work(list)
      {
        ghost var q := State();
        o := Turn();
        if o != Again { return; }
        NextTurnWorks(q);
      }
      o := Nothing;
    }

    /** One turn of that loop. */
    method Turn() returns (o: Outcome)
      requires list != []
      modifies this
      ensures (State(), o) == NextTurn(old(State()))
    {
      var v := Ordered();
      match v
      case Blocked => o := Nothing;
      case Dropped => o := Again;
      case Pass(r) =>
        if r == BarProxy && orig.Rq? && orig.empty {
          EndRequest(BarProxy, 0, true);
          o := Again;
        } else {
          started := started + {r};
          o := Give(r);
        }
    }

    /** elv_requeue_request; FindSlot is the loop of elv_insert with ELEVATOR_INSERT_REQUEUE. */
    method RequeueRequest(r: Req)
      modifies this`list, this`driver, this`started, this`soft, this`inFlight
      ensures State() == Requeue(old(State()), r)
    {
      var k := 0;
      if ord.started {
        var color := orig.Rq? && orig.color;
        k := FindSlot(color, ReqSeq(color, r));
      }
      PutBack(r, k);
    }

    method PutBack(r: Req, k: nat)
      requires k <= |list|
      modifies this`list, this`driver, this`started, this`soft, this`inFlight
      ensures State() == RequeueAt(old(State()), r, k)
    {
      inFlight := inFlight - B2I(r in started && IsFs(r));
      driver, started, soft := driver - {r}, started - {r}, soft + {r};
      list := InsertAt(list, k, r);
    }

    method FindSlot(color: bool, s: nat) returns (k: nat)
      ensures k == Slot(color, list, s)
    {
      k := 0;
      while k < |list| && s > ReqSeq(color, list[k])
        invariant k <= |list|
        invariant Slot(color, list, s) == k + Slot(color, list[k..], s)
      {
        assert list[k..][1..] == list[k + 1..];
        k := k + 1;
      }
    }
  }

  /** Pushing the steps one by one, the last first. */
  lemma StepsPushed(mode: Mode, empty: bool, l: seq<Req>, soft: set<Req>, started: set<Req>)
    requires !mode.NoOrder?
    ensures
      var l1 := [BarProxy] + (if mode.post && !empty then [PostFlush] + l else l);
      Proxies(mode, empty) + l == if mode.pre then [PreFlush] + l1 else l1
    ensures
      var s1 := (if mode.post && !empty then soft + {PostFlush} else soft) + {BarProxy};
      soft + (set x | x in Proxies(mode, empty)) == if mode.pre then s1 + {PreFlush} else s1
    ensures
      var s1 := (if mode.post && !empty then started - {PostFlush} else started) - {BarProxy};
      started - (set x | x in Proxies(mode, empty)) == if mode.pre then s1 - {PreFlush} else s1
  {
    var p, q := Proxies(mode, empty), if mode.post && !empty then [PostFlush] else [];
    assert p == (if mode.pre then [PreFlush] else []) + [BarProxy] + q;
    assert forall x :: x in p <==>
      x == BarProxy || (mode.pre && x == PreFlush) || (mode.post && !empty && x == PostFlush);
    hide Proxies;
  }
}

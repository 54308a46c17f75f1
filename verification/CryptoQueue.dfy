/** The request queue of crypto/algapi.c and its backlog pointer. */
module CryptoQueue {
  // The pointer marks the first request that is only there because it agreed to wait.

  import opened Options
  import opened Lists

  type Id = nat

  datatype Code = InProgress | Busy

  /** NULL, or &queue->list */
  type Link = Option<Id>

  /** struct crypto_queue */
  datatype Q = Q(list: seq<Id>, backlog: Link, qlen: nat, maxQlen: nat)

  /** The entry after `x`, or the list head after the last. */
  function Next(list: seq<Id>, x: Id): Link
    requires x in list
  {
    var k := Index(list, x) + 1;
    if k < |list| then Some(list[k]) else None
  }

  /** crypto_enqueue_request */
  function Enqueued(q: Q, x: Id, mayBacklog: bool): (Q, Code) {
    if q.qlen < q.maxQlen then (q.(qlen := q.qlen + 1, list := q.list + [x]), InProgress)
    else if !mayBacklog then (q, Busy)
    else
      (q.(qlen := q.qlen + 1, list := q.list + [x],
          backlog := if q.backlog == None then Some(x) else q.backlog), Busy)
  }

  /** crypto_dequeue_request */
  function Dequeued(q: Q): (Q, Link)
    requires q.qlen > 0 ==> q.list != [] && (q.backlog == None || q.backlog.value in q.list)
  {
    if q.qlen == 0 then (q, None)
    else
      var backlog := if q.backlog == None then None else Next(q.list, q.backlog.value);
      (q.(qlen := q.qlen - 1, backlog := backlog, list := q.list[1..]), Some(q.list[0]))
  }

  /** The entry at index `k`, or the list head. */
  function Entry(list: seq<Id>, k: nat): Link { if k < |list| then Some(list[k]) else None }

  /** The count is true, no request is queued twice, and the pointer marks index max_qlen. */
  predicate Accurate(q: Q) {
    q.qlen == |q.list| && NoDup(q.list) && q.backlog == Entry(q.list, q.maxQlen)
  }

  lemma EnqueueAccurate(q: Q, x: Id, mayBacklog: bool)
    requires Accurate(q) && x !in q.list
    ensures Accurate(Enqueued(q, x, mayBacklog).0)
    ensures Enqueued(q, x, mayBacklog).1 == if |q.list| < q.maxQlen then InProgress else Busy
    ensures Enqueued(q, x, mayBacklog).0.list ==
      if |q.list| < q.maxQlen || mayBacklog then q.list + [x] else q.list
  {
  }

  lemma NextAt(list: seq<Id>, k: nat)
    requires NoDup(list) && k < |list|
    ensures Next(list, list[k]) == Entry(list, k + 1)
  {
    IndexUnique(list, list[k], k);
  }

  lemma DequeueAccurate(q: Q)
    requires Accurate(q)
    ensures q.list == [] ==> Dequeued(q) == (q, None)
    ensures q.list != [] ==> Dequeued(q).1 == Some(q.list[0]) && Dequeued(q).0.list == q.list[1..]
    ensures Accurate(Dequeued(q).0)
  {
    if |q.list| > q.maxQlen {
      NextAt(q.list, q.maxQlen);
    }
    if q.list != [] {
      assert NoDup(q.list[1..]);
    }
  }

  class Queue {
    var list: seq<Id>
    var backlog: Link
    var qlen: nat
    const maxQlen: nat

    function State(): Q
      reads this
    {
      Q(list, backlog, qlen, maxQlen)
    }

    /** crypto_init_queue */
    constructor (max: nat)
      ensures State() == Q([], None, 0, max) && Accurate(State())
    {
      list, backlog, qlen, maxQlen := [], None, 0, max;
    }

    method Enqueue(x: Id, mayBacklog: bool) returns (err: Code)
      requires Accurate(State()) && x !in list
      modifies this
      ensures (State(), err) == Enqueued(old(State()), x, mayBacklog) && Accurate(State())
    {
      EnqueueAccurate(State(), x, mayBacklog);
      err := InProgress;
      if qlen >= maxQlen {
        err := Busy;
        if !mayBacklog {
          return;
        }
        if backlog == None {
          backlog := Some(x);
        }
      }
      qlen := qlen + 1;
      list := list + [x];
    }

    /** crypto_get_backlog */
    method GetBacklog() returns (r: Link)
      requires Accurate(State())
      ensures r == Entry(list, maxQlen)
    {
      r := backlog;
    }

    method Dequeue() returns (r: Link)
      requires Accurate(State())
      modifies this
      ensures (State(), r) == Dequeued(old(State())) && Accurate(State())
    {
      DequeueAccurate(State());
      if qlen == 0 {
        return None;
      }
      qlen := qlen - 1;
      if backlog != None {
        backlog := Next(list, backlog.value);
      }
      r := Some(list[0]);
      list := list[1..];
    }
  }
}

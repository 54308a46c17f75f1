# Request ordering and cipher modes of Linux 2.6.28.6

A Dafny model of two parts of the kernel whose correctness rests on invariants that no single
function shows:

- **The block layer** (`block/`): how requests are ordered, merged and accounted between the moment a
  bio arrives and the moment the driver reports it done.
- **The crypto layer** (`crypto/`): the block cipher modes CBC, CTR, CTS and CCM as transformations of
  byte strings, and the two queues behind the asynchronous interfaces.

`dfyconfig.toml` lists all modules; `dafny verify dfyconfig.toml` checks them together.

## How the model is made

An operation that changes state appears twice: as a function on values that says what it computes,
and as a method of a class (or a loop over arrays) that updates fields in place as the code does and is
proved equal to that function. What the code is for is then proved about the functions, over whole
runs: an invariant that every step keeps, and theorems about every state or output that can be
reached. The queue lock makes a whole operation one step; in `chainiv`, which has no such lock, every
access to the shared bit, the queue length, the queue, the error and the IV is a step of its own, and
any number of callers and work items interleave.

| Part | Source | Modules |
|---|---|---|
| Ordered writes (barriers) | `blk-barrier.c`, `elevator.c` | `OrderedQueue`, `OrderedInvariant`, `OrderedSteps`, `OrderedSequence`, `OrderedTheorems`, `OrderedAhead`, `OrderedFence`, `OrderedProgress`, `OrderedHarm`, `OrderedRecolour`, `OrderedFlips`, `OrderedCondition`, `RequestQueue` |
| Deadline scheduler | `deadline-iosched.c` | `Deadline`, `DeadlineSteps`, `DeadlineTheorems`, `DeadlineReads`, `DeadlineSweep`, `DeadlineScheduler` |
| CFQ scheduler | `cfq-iosched.c` | `CfqQueue`, `Cfq`, `CfqOrder`, `CfqChoice`, `CfqConservation`, `CfqScheduler` |
| Dispatch sort and merge hash | `elevator.c` | `DispatchSort`, `DispatchRuns`, `MergeHash`, `Elevator` |
| Segments and partial completion | `blk-merge.c`, `blk-core.c` | `SegmentMerge`, `RequestSegments`, `PartialCompletion`, `RequestBios` |
| Tags | `blk-tag.c` | `TagMap`, `TagQueue` |
| Chained IVs | `chainiv.c` | `ChainIv`, `ChainIvSteps`, `ChainIvTheorems`, `ChainIvSeeding` |
| Cipher modes | `cbc.c`, `ctr.c`, `cts.c`, `ccm.c`, `algapi.c` | `Bytes`, `BlockCipher`, `Cbc`, `CbcWalk`, `Ctr`, `Cts`, `Ccm`, `CcmSeal`, `CcmTwoWays`, `CcmTheorems`, `CcmStandard`, `CcmWalk` |
| Crypto queue and its worker | `algapi.c`, `cryptd.c` | `CryptoQueue`, `Cryptd`, `CryptdSteps`, `CryptdTheorems`, `CryptdCallers` |

`Lists`, `Options` and `Arithmetic` hold what the others share: facts about sequences and division, and
the optional value.

The classes hold more methods than the table below lists. Those without a loop (the inserts, removals,
merges and completion hooks of `RequestQueue`, `DeadlineScheduler`, `CfqScheduler`, `Elevator`, `TagQueue`
and `CryptoQueue`) each promise that they leave the fields as the step of the model does; the rows name
the methods that loop or work on arrays.

## What the proofs found

Where a promise does not hold of the code, the project keeps the code, exhibits an input, and proves
the exact condition under which the promise holds.

- **Barrier colour.** `__elv_add_request` flips the queue's colour bit for any request that carries
  `REQ_HARDBARRIER`, but only a file-system barrier starts a sequence. `drivers/block/pktcdvd.c:782-783`
  adds packet commands with that flag. `OrderedCondition.HarmlessExactly` says for every reachable queue
  when one such add leaves the protocol safe for ever: if and only if no ordinary request is queued or
  outstanding that was added after the newest barrier, and the newest barrier is ended or carries no
  data. `OrderedCondition.SafeRuns` extends this to any number of such adds; `OrderedHarm.NewestHarms` and
  `OrderedHarm.UnendedHarms` drive the queue to an unsafe hand-out in the two other cases, and
  `OrderedCondition.Unsafe` is such a run from the empty queue. The theorems of `OrderedTheorems` and `OrderedAhead` are about
  runs without such adds.
- **Reads can starve.** The deadline scheduler protects writes from reads. That an expired read leaves after a
  bounded number of dispatch calls (`DeadlineReads.ExpiredReadLeaves`) holds when `writes_starved` is at least
  one; with zero, which sysfs admits, an expired read at the head of its FIFO can stay for any number of
  calls (`DeadlineReads.ReadStarves`).
- **Failed seeding strands the queue.** When the first call of `async_chainiv_givencrypt_first` fails
  to get random bytes it clears `INUSE` without looking at the queue
  (`ChainIvTheorems.FailedSeedingStrands`). `AtQuiescence` says that this is the only way in which
  requests are left behind.
- **Failed seeding is not tried again.** The hook is replaced before the random source is asked, so the
  next caller is served, with success, from whatever `ctx->iv` held (`ChainIvSeeding.FailedSeedingServes`).
  `ChainIvSeeding.SeededExactly` says that an IV goes back to the random source exactly when the one
  attempt did not fail.
- **A cut sweep.** `elv_dispatch_sort` relies on the tail of the dispatch list being sorted from
  `end_sector`, but `elv_next_request` moves `end_sector` to the end of whatever it hands out. A write whose
  end falls between two queued reads makes the next read jump before both (`DispatchRuns.FetchCuts`).
  `DispatchRuns.SortedExactly` says when the tail stays sorted: exactly when no move of `end_sector` cuts it
  in two. With requests of one kind that do not overlap it always does (`DispatchRuns.SweepsSorted`).
- **A CCM length one too large.** `set_msg_len` accepts a message of exactly 2^(8L) bytes and writes
  the length 0 (`Ccm.LengthWraps`, `Ccm.MsgLenExact`). `Ccm.PrefixExact` says exactly when one formatted
  input begins another: besides a message and itself, only the empty message and one of 2^(8L) bytes
  with the same nonce and associated data.
- **The CCM counter can leave its field.** Decryption formats the first block from the counter block
  after the payload has been decrypted. For a cipher text that is too long for the length field the
  counter can carry into the nonce and even into the byte that holds L; the check that should refuse
  the message then looks at the wrong field. `CcmTheorems.InvertsExactly` gives the exact condition,
  `CcmTheorems.SomeEscape` and `CcmTheorems.OpenEscapes` the inputs. For every message that encryption accepts
  decryption is its inverse (`CcmTheorems.OpensWhatWasSealed`).
- **Growing a tag map can shrink it.** `init_tag_map` clamps the new depth to twice the number of
  requests; when that is below the old real depth the copy writes beyond the new arrays.
  `TagMap.OverrunsExactly` derives the condition from the element-wise copy, and `TagMap.OverrunReached` is
  a run that meets it after `nr_requests` was lowered.
- **A class that changes on the tree.** CFQ places a queue by class and key, but a queue that is on the
  service tree can change its class (`cfq_prio_boost`) without being moved. `CfqOrder.BoostMisplaces` is a
  history that obeys the rule for the keys of idle queues: an idle queue comes first, later one of the
  best-effort class with a larger key, and the idle one is boosted; the leftmost queue is then not the
  first by rank. `CfqOrder.RankedExactly` says for every history when the tree is in rank order after
  every event: exactly when each change of class on the tree leaves the queue right with both neighbours.
- **A refused `cryptd` request.** `cryptd_blkcipher_enqueue` swaps the completion function before it
  knows whether the queue takes the request. A caller that submits a refused request again without
  setting its callback anew gets the worker's own completion function for its own
  (`CryptdTheorems.RefusedThenCaught`, `CryptdTheorems.CaughtForGood`); `CryptdTheorems.TrappedRun` is such a
  run for a queue of any length (100 in the source). `CryptdTheorems.CompletedExactly`: everything accepted
  can still be completed if and only if no submission that the queue took carried the worker's function;
  `CryptdCallers.CompletedIffCareful` says the same of what callers see.
- **CTS below one block.** A non-empty input shorter than one block makes the code read and write a
  whole block (`Cts.Encrypt`, `Cts.Decrypt` state what it computes then).

The backlog pointer is exact for every `max_qlen`, zero included.

## Model

| member | source | states |
|---|---|---|
| `OrderedInvariant.AddFsInv` | linux-2.6.28.6/block/elevator.c:681-717 | adding a file-system request or barrier keeps the invariant: the colour it gets is the parity of the barriers before it |
| `OrderedSteps.DispatchInv` | linux-2.6.28.6/block/elevator.c:430-466 | moving any request from any scheduler to any place behind the last scheduling boundary keeps the invariant |
| `OrderedSteps.DequeueInv` | linux-2.6.28.6/block/elevator.c:833-847 | handing a started request to the driver keeps the invariant, with the in-flight counter equal to the accounted requests at the driver |
| `OrderedSteps.ColourTells` | linux-2.6.28.6/block/blk-barrier.c:62-89 | as long as nothing of the other colour stands before it, a request has the colour of the running barrier exactly when it was added between the previous barrier and this one |
| `OrderedSteps.BarrierBefore` | linux-2.6.28.6/block/elevator.c:583-679 | a request newer than the next barrier always stands behind that barrier in the list |
| `OrderedSteps.RequeuePlainSorted` | linux-2.6.28.6/block/elevator.c:636-664 | a requeued ordinary request goes to the very front, even during a sequence, and the list stays ordered by barrier |
| `OrderedSteps.RequeueSorted` | linux-2.6.28.6/block/elevator.c:636-664 | whatever the driver gives back, the requeue finds a place that keeps the list in the order of the sequence |
| `OrderedSteps.RequeueInv` | linux-2.6.28.6/block/elevator.c:552-567 | a requeue at any moment keeps the invariant |
| `OrderedSequence.DrainDone` | linux-2.6.28.6/block/elevator.c:923-949 | when nothing accounted is in flight and the head is not older than the barrier, no older request is left anywhere, so ending the drain keeps the invariant |
| `OrderedSequence.CompleteProxyInv` | linux-2.6.28.6/block/blk-barrier.c:91-130 | the end of a pre-flush, barrier proxy or post-flush sets a bit that was clear, is the step whose turn it is, and keeps the invariant |
| `OrderedSequence.StartInv` | linux-2.6.28.6/block/blk-barrier.c:154-203 | starting a sequence replaces the barrier at the head by its steps in order and keeps the invariant, also when the drain is skipped because nothing is in flight |
| `OrderedSequence.NextInv` | linux-2.6.28.6/block/blk-barrier.c:205-252 | one turn of the fetch loop keeps the invariant, whether it starts a sequence, refuses a barrier, ends an empty barrier on the spot or hands out the head |
| `OrderedSequence.StepInv` | linux-2.6.28.6/block/elevator.c:681-949 | every step of the protocol (add, dispatch, fetch, dequeue, requeue, complete, late put) keeps the invariant |
| `OrderedTheorems.NothingLost` | linux-2.6.28.6/block/elevator.c:552-949 | a request stops being in the scheduler, in the list or at the driver only by being completed, except for the barrier at the head, which its sequence replaces, and the proxy of an empty barrier |
| `OrderedTheorems.BarrierSafety` | linux-2.6.28.6/block/blk-barrier.c:154-252 | over every run in draining mode: when a flush or the barrier is handed out, no file-system request added before the barrier, ordinary or barrier, is queued or at the driver any more, and the barriers before it have been ended, in order; no file-system request added after the barrier is handed out or at the driver until the sequence ends; the barrier itself is never handed out |
| `OrderedTheorems.ColourIsAge` | linux-2.6.28.6/block/blk-barrier.c:62-89 | one colour bit is enough: a file-system request at the head or at the driver has the colour of the running barrier exactly when it was added before it, with any number of barriers queued |
| `OrderedTheorems.ReusedColourBlocked` | linux-2.6.28.6/block/elevator.c:684-692 | a newer request that re-uses the colour always has a request of the other colour before it, which blocks the queue |
| `OrderedTheorems.HeadNotOverdue` | linux-2.6.28.6/block/blk-barrier.c:247-252 | the head of the list is never a step that the sequence has already passed |
| `OrderedTheorems.NoDoubleCompletion` | linux-2.6.28.6/block/blk-barrier.c:91-101 | an embedded request that is queued or at the driver has not been completed in this sequence: the BUG_ON cannot fire |
| `OrderedTheorems.SequenceComplete` | linux-2.6.28.6/block/blk-barrier.c:91-112 | a finished sequence has completed exactly the steps it did not skip, each once, in ascending order when draining, and has ended its barrier with the first error reported |
| `OrderedTheorems.BarriersEndInOrder` | linux-2.6.28.6/block/blk-barrier.c:205-252 | every barrier is ended at most once, and barriers end in the order in which they were added; without ordering each ends with -EOPNOTSUPP (-95) |
| `OrderedFence.NotPassed` | linux-2.6.28.6/block/elevator.c:430-679 | over every run: a request that was inserted at either end of the list or put back, a step of a sequence, and a request that was offered to the driver are passed by nothing that the scheduler dispatches later, as long as they are in the list |
| `OrderedAhead.TaggedAdmits` | linux-2.6.28.6/block/blk-barrier.c:239-243 | over every run in a tagged mode: while a sequence runs, the head of the list waits if and only if it is a barrier; it is then the next one, and one of the steps of the running sequence is with the driver. Every other head is handed out, but for the proxy of an empty barrier, which is ended on the spot |
| `OrderedAhead.DrainingAdmits` | linux-2.6.28.6/block/blk-barrier.c:244-252 | over every run in draining mode: while a sequence runs, the head goes through if and only if it is a special request, a request older than the barrier while the older ones drain, or the step whose turn it is |
| `OrderedAhead.EmptyNeverGiven` | linux-2.6.28.6/block/elevator.c:746-762 | in every mode: the proxy of a barrier without data is never handed to the driver |
| `OrderedAhead.FlushesDone` | linux-2.6.28.6/block/blk-barrier.c:154-203 | a sequence that has ended has written its barrier, flushed before it exactly when the mode asks for that, and flushed after it exactly when the mode asks for that and the barrier had data |
| `OrderedAhead.DrainSkipped` | linux-2.6.28.6/block/blk-barrier.c:182-203 | the wait for older requests is left out exactly in tagged modes and when no file-system request is with the driver |
| `OrderedAhead.HeadAdmitted` | linux-2.6.28.6/block/blk-barrier.c:205-252 | in every mode, with nothing at the driver the head of the list is never made to wait |
| `OrderedAhead.NeverStuck` | linux-2.6.28.6/block/elevator.c:730-751 | in every mode, with nothing at the driver and no reference outstanding, the inner loop of the fetch, over the list alone, yields a request or has emptied the list |
| `OrderedProgress.EveryRunEnds` | linux-2.6.28.6/block/elevator.c:552-949 | in every mode, with no further adds or requeues, whatever dispatches, fetches, dequeues and completions a driver carries out, in any order, there are at most ToDo of them, a number read off the list, the scheduler and the driver; when no more is possible everything is done and every queued barrier has been ended |
| `OrderedCondition.HarmlessExactly` | linux-2.6.28.6/block/elevator.c:684-692 | for every reachable queue: adding a request that has the hard-barrier flag and is not a file-system request leaves every later hand-out safe if and only if no ordinary request that came after the newest barrier is queued or outstanding and the newest barrier has been ended or is empty |
| `OrderedCondition.SafeRuns` | linux-2.6.28.6/block/elevator.c:684-692 | every run is safe in which any number of such requests are added, each at such a moment |
| `OrderedHarm.NewestHarms` | linux-2.6.28.6/block/elevator.c:684-692 | when an ordinary request is the newest, a toggled colour leads to an unsafe hand-out: the barrier added next starts while that request is at the driver |
| `OrderedHarm.UnendedHarms` | linux-2.6.28.6/block/elevator.c:684-692 | when the newest barrier has data and has not been ended, a toggled colour leads to an unsafe hand-out: a request added next passes for older than the barrier |
| `OrderedCondition.Unsafe` | linux-2.6.28.6/block/elevator.c:684-692 | a run from the empty queue that ends with such a hand-out |
| `OrderedFlips.StepSeen` | linux-2.6.28.6/block/elevator.c:552-949 | the protocol does not look at colours but only compares them: a step on a queue with flipped colours is the step on the original, flipped, as long as what is compared is flipped alike |
| `OrderedQueue.DispatchIgnoresColour` | linux-2.6.28.6/block/elevator.c:681-698 | draining the elevator commutes with flipping the colour, so the flip at the start of an add is the same as one at its end |
| `OrderedQueue.NextTurnWorks` | linux-2.6.28.6/block/elevator.c:746-831 | every turn of the fetch loop that goes on has strictly less left to do, so the loop ends |
| `RequestQueue.Queue.DrainElevator` | linux-2.6.28.6/block/elevator.c:569-581 | the loop of forced dispatches ends with an empty scheduler and the list longer by its requests, by dispatch steps only, whichever request the scheduler picks each time |
| `RequestQueue.Queue.Next` | linux-2.6.28.6/block/elevator.c:730-831 | the loop of the fetch over the list, in place, gives what the recursive fetch of the protocol gives and leaves the same state |
| `RequestQueue.Queue.FindSlot` | linux-2.6.28.6/block/elevator.c:657-663 | the scan stops at the first request whose turn is not earlier |
| `DeadlineSteps.AddOk` | linux-2.6.28.6/block/deadline-iosched.c:100-116 | adding a request keeps the indexes in agreement, also when it evicts an alias with the same sector |
| `DeadlineSteps.FrontMergedOk` | linux-2.6.28.6/block/deadline-iosched.c:156-168 | a front merge, which moves a request to another sector and may evict an alias, keeps the indexes in agreement |
| `DeadlineSteps.MergedOk` | linux-2.6.28.6/block/deadline-iosched.c:170-189 | merging two requests, with the earlier deadline handed over, keeps the FIFO ordered by expiry and the indexes in agreement |
| `DeadlineSteps.DispatchOk` | linux-2.6.28.6/block/deadline-iosched.c:245-327 | a dispatch call keeps the indexes in agreement |
| `DeadlineTheorems.RunSound` | linux-2.6.28.6/block/deadline-iosched.c:76-327 | over every run of adds, merges, dispatch calls and passing time: per direction FIFO and sort list hold the same requests, sectors are distinct and sorted, next pointers are members and at most one is set, the FIFO is ordered by expiry |
| `DeadlineTheorems.HeadDecides` | linux-2.6.28.6/block/deadline-iosched.c:228-239 | looking at the head of the FIFO alone decides whether any request of that direction has expired, in every reachable state |
| `DeadlineTheorems.WritesNotStarved` | linux-2.6.28.6/block/deadline-iosched.c:245-327 | while a write stays pending, the consecutive dispatch calls that choose reads are at most what is left of the batch plus (writes_starved - starved) batches, whatever else happens between them |
| `DeadlineTheorems.OverdueLeaves` | linux-2.6.28.6/block/deadline-iosched.c:245-327 | an expired write that is still queued after a run is nearer to the head by what the calls of the run account for |
| `DeadlineTheorems.ExpiredWriteLeaves` | linux-2.6.28.6/block/deadline-iosched.c:245-327 | an expired write at FIFO position k is gone after (k+1)((writes_starved+1) fifo_batch + 1) dispatch calls, whatever adds, merges and evictions interleave |
| `DeadlineSweep.AfterDispatch` | linux-2.6.28.6/block/deadline-iosched.c:245-327 | every call that finds something queued moves exactly one request, at some sector s, to the dispatch queue and leaves the others queued; next_rq of its direction is then the queued request with the least sector above s, or none if and only if none lies above, and the other direction has none |
| `DeadlineSweep.SweepSkipsNone` | linux-2.6.28.6/block/deadline-iosched.c:245-327 | over every run of calls and waiting in which each call goes on with the batch: the requests dispatched have strictly ascending sectors, begin with next_rq, and are exactly the requests of the direction queued between the first and the last of these sectors |
| `DeadlineSweep.BatchExactly` | linux-2.6.28.6/block/deadline-iosched.c:258-268 | after any such run the next call goes on with the batch if and only if fifo_batch is not used up and a queued request lies at next_rq or above that has not been dispatched |
| `DeadlineSweep.MovedNext` | linux-2.6.28.6/block/deadline-iosched.c:204-222 | moving a request, also an alias, points next_rq at the next higher sector of its direction and clears the other |
| `DeadlineSweep.AbsorbedNext` | linux-2.6.28.6/block/deadline-iosched.c:85-124 | when the request that was next is absorbed by a merge, the one at the next higher sector is next; otherwise next_rq stays |
| `DeadlineSweep.AddIs` | linux-2.6.28.6/block/deadline-iosched.c:100-116 | a new request stands last in the FIFO, expires after the tunable of its direction, and evicts exactly the requests of its direction at its sector |
| `DeadlineSweep.FrontIs` | linux-2.6.28.6/block/deadline-iosched.c:156-168 | after a front merge the request has its new sector, the expiry and FIFO place it had, and exactly another request at that sector has been evicted |
| `DeadlineSweep.MergeIs` | linux-2.6.28.6/block/deadline-iosched.c:170-189 | of two merged requests one is left, with the earlier of the two expiries; nothing else changes |
| `DeadlineReads.PickIs` | linux-2.6.28.6/block/deadline-iosched.c:228-306 | in every reachable state and for both directions: a new batch starts with the request of the earliest expiry when some request of the direction has expired or nothing is next, and with next_rq otherwise |
| `DeadlineReads.NewBatchTakes` | linux-2.6.28.6/block/deadline-iosched.c:298-326 | a call that starts a batch dispatches that request, resets the count of the batch and leaves the other direction alone |
| `DeadlineReads.ReadForward` | linux-2.6.28.6/block/deadline-iosched.c:76-327 | whatever happens, a queued read keeps its place or moves forward, and one that has left does not come back |
| `DeadlineReads.ExpiredReadLeaves` | linux-2.6.28.6/block/deadline-iosched.c:245-327 | with writes_starved at least one, an expired read at FIFO position k is gone after more than 2 (k+1) fifo_batch dispatch calls, whatever adds, merges and evictions interleave |
| `DeadlineReads.ReadStarves` | linux-2.6.28.6/block/deadline-iosched.c:270-287 | with writes_starved zero there is no such bound: for every n a reachable state and a run of n dispatch calls that leave an expired read at the head of the FIFO where it is |
| `DeadlineTheorems.GoneForGood` | linux-2.6.28.6/block/deadline-iosched.c:245-327 | a write that has left the FIFO does not come back |
| `DeadlineScheduler.Scheduler.RbFind` | linux-2.6.28.6/block/elevator.c:405-422 | finds the request with that sector when there is one |
| `DeadlineScheduler.Scheduler.RbSlot` | linux-2.6.28.6/block/elevator.c:373-394 | finds the place that keeps the sort list sorted |
| `DeadlineScheduler.Scheduler.ClearAlias` | linux-2.6.28.6/block/deadline-iosched.c:76-84 | evicts requests with that sector until none is left |
| `CfqQueue.ChooseIsCheapest` | linux-2.6.28.6/block/cfq-iosched.c:315-402 | the case analysis of cfq_choose_req picks the smaller in one total order (sync before async, metadata first, then distance with back seeks penalised and wraps last), whichever argument comes first |
| `CfqChoice.FindNextCheapest` | linux-2.6.28.6/block/cfq-iosched.c:431-452 | when next_rq leaves, its successor is, of the requests next to it by sector (the first of the list counting as next to the last), the one of least cost |
| `CfqChoice.LinkedNext` | linux-2.6.28.6/block/cfq-iosched.c:604-627 | a new request becomes next_rq exactly when there was none or it costs less |
| `CfqChoice.RoundServes` | linux-2.6.28.6/block/cfq-iosched.c:1038-1084 | for every n, the n-th request of a round is the head of the FIFO if that has expired then, and next_rq otherwise, of the queue as the requests before have left it |
| `CfqChoice.MergedPlace` | linux-2.6.28.6/block/cfq-iosched.c:721-732 | the survivor of a merge stands in the FIFO where the absorbed request stood if that was the older, and where it stood itself otherwise; the others keep their order |
| `CfqChoice.SelectionIs` | linux-2.6.28.6/block/cfq-iosched.c:993-1031 | the active queue goes on as long as its slice lasts and it has requests; otherwise, unless the scheduler waits for it, the answer and the new active queue are the first of the tree, into which the old one has been put again |
| `CfqChoice.SelectedIsLeast` | linux-2.6.28.6/block/cfq-iosched.c:823-841 | over every history in which class changes fit: when selection does not stay with the active queue, no queue with requests is of a better class than the chosen one or of the same class with a smaller key, and none is chosen only if no queue has requests |
| `CfqQueue.FindNextFacts` | linux-2.6.28.6/block/cfq-iosched.c:431-452 | the next request is another member of the sort list, and there is none only when the request was the only one |
| `CfqQueue.RemovedGood` | linux-2.6.28.6/block/cfq-iosched.c:589-602 | removing a request from a queue keeps FIFO and sort list equal and next_rq a member, empty only with the list |
| `CfqQueue.LinkedGood` | linux-2.6.28.6/block/cfq-iosched.c:604-627 | linking a request whose sector is free keeps the list sorted and next_rq right |
| `CfqQueue.AliasExact` | linux-2.6.28.6/block/cfq-iosched.c:604-617 | the alias test is true exactly when some request has that sector |
| `Cfq.FirstExact` | linux-2.6.28.6/block/cfq-iosched.c:407-416 | the cached leftmost node is the in-order first of the service tree |
| `Cfq.ErasedOk` | linux-2.6.28.6/block/cfq-iosched.c:418-425 | erasing a node keeps the cache right and removes exactly that queue |
| `Cfq.PlacedOk` | linux-2.6.28.6/block/cfq-iosched.c:469-541 | inserting a queue keeps the cache right wherever the walk ends |
| `CfqOrder.Walk` | linux-2.6.28.6/block/cfq-iosched.c:485-520 | the loop down any tree, going left by class and key, ends at a place between queues from which it went right and queues from which it went left, and its flag says whether that place is the leftmost |
| `CfqOrder.PlacedInRank` | linux-2.6.28.6/block/cfq-iosched.c:469-541 | inserting where such a walk ends keeps the tree in rank order, with the new queue behind its equals |
| `CfqOrder.LeftmostIsLeast` | linux-2.6.28.6/block/cfq-iosched.c:407-1117 | over every history in which each change of class on the tree leaves the queue right with its neighbours, the cached leftmost queue is one before which no other queue is to be served |
| `CfqOrder.RankedExactly` | linux-2.6.28.6/block/cfq-iosched.c:469-541 | for every history of steps and class changes, with idle queues keyed behind the last queue on the tree: the tree is in rank order after every event if and only if each change of class on the tree leaves the queue right with both neighbours |
| `CfqOrder.ChangedExactly` | linux-2.6.28.6/block/cfq-iosched.c:1966-1985 | a queue that changes class on the tree leaves it in rank order if and only if it still stands right with its two neighbours |
| `CfqOrder.BoostMisplaces` | linux-2.6.28.6/block/cfq-iosched.c:473-1985 | for every idle delay a history that obeys the key rule, in which an idle queue joins the empty tree, a best-effort one is put before it with a larger key, and a boost of the first leaves the cached leftmost queue not the first by rank |
| `Cfq.RemoveRqKeeps` | linux-2.6.28.6/block/cfq-iosched.c:678-693 | removing a request keeps every cache: the queue leaves the service tree exactly when its list becomes empty |
| `Cfq.AddRbKeeps` | linux-2.6.28.6/block/cfq-iosched.c:604-627 | adding to the sort list keeps every cache, also when an alias is first moved to the dispatch queue and the queue leaves and rejoins the tree |
| `Cfq.InsertKeeps` | linux-2.6.28.6/block/cfq-iosched.c:1877-1890 | inserting a request keeps every cache |
| `Cfq.RepositionKeeps` | linux-2.6.28.6/block/cfq-iosched.c:629-634 | moving a request to a new sector keeps every cache |
| `Cfq.FifoAfter` | linux-2.6.28.6/block/cfq-iosched.c:721-732 | a merge keeps FIFO and sort list equal, whether or not the absorbed request was the older one and hands its FIFO position over |
| `Cfq.DispatchKeeps` | linux-2.6.28.6/block/cfq-iosched.c:937-950 | dispatching moves exactly one request, changes no other queue, and keeps every cache |
| `Cfq.SelectionHasWork` | linux-2.6.28.6/block/cfq-iosched.c:993-1031 | whether or not the slice is used up and whether or not the scheduler idles: selection never yields an empty queue, and yields none only when all are empty or it idles on the active one |
| `Cfq.Round` | linux-2.6.28.6/block/cfq-iosched.c:1038-1084 | a dispatch round, whichever requests have expired, moves exactly the requests it counts, loses none, and keeps every cache |
| `Cfq.DrainedFacts` | linux-2.6.28.6/block/cfq-iosched.c:1086-1097 | forcing one queue empties it, FIFO and sort list, and leaves the others as they were |
| `Cfq.ForcedLosesNone` | linux-2.6.28.6/block/cfq-iosched.c:1103-1117 | the loop of a forced dispatch moves every request it removes |
| `Cfq.ForcedEmptiesAll` | linux-2.6.28.6/block/cfq-iosched.c:1103-1117 | a forced dispatch ends with every queue empty, the tree empty, both counters zero and no active queue; it returns the number of requests that were there, and exactly those were moved |
| `CfqConservation.NothingLost` | linux-2.6.28.6/block/cfq-iosched.c:407-1117 | over every run, the requests moved to the dispatch list, those that the queues still hold and those absorbed by merges are together, with repetitions, exactly those inserted, evicted aliases and forced dispatches included |
| `CfqConservation.StepAccount` | linux-2.6.28.6/block/cfq-iosched.c:604-1117 | every step keeps that balance |
| `Cfq.CachesAgree` | linux-2.6.28.6/block/cfq-iosched.c:407-1117 | in every reachable state, wherever the walks end: a queue is on the tree iff its sort list is non-empty, next_rq is NULL iff it is empty and otherwise a member, FIFO and sort list hold the same requests, sectors ascend, and both counters are the true counts |
| `CfqScheduler.Scheduler.AddRqRb` | linux-2.6.28.6/block/cfq-iosched.c:604-627 | the loop over aliases and the link, in place, are the model's |
| `CfqScheduler.Scheduler.DispatchRequests` | linux-2.6.28.6/block/cfq-iosched.c:1038-1084 | the dispatch loop moves and counts what the model's round does, for any expiry of the FIFO at each turn |
| `CfqScheduler.Scheduler.ForcedDispatchQueue` | linux-2.6.28.6/block/cfq-iosched.c:1086-1097 | the loop over next_rq is the model's drain, with its count |
| `CfqScheduler.Scheduler.ForcedDispatch` | linux-2.6.28.6/block/cfq-iosched.c:1103-1117 | the loop over the leftmost queue is the model's forced dispatch, with its count |
| `DispatchSort.Dispatch` | linux-2.6.28.6/block/elevator.c:430-466 | the loop from the back gives the list with the request at the place where the scan stops |
| `DispatchSort.SlotInRun` | linux-2.6.28.6/block/elevator.c:437-458 | a request never moves past a barrier, a started request, or one of the other direction or discard kind |
| `DispatchSort.DispatchIsStable` | linux-2.6.28.6/block/elevator.c:430-466 | the result is stable insertion, by the one-way order that starts at end_sector, into the run at the tail; everything before the run is untouched |
| `DispatchSort.InsertedSorted` | linux-2.6.28.6/block/elevator.c:430-466 | stable insertion keeps the run sorted and adds exactly the one request |
| `DispatchSort.SortsAll` | linux-2.6.28.6/block/elevator.c:430-466 | dispatching any number of alike requests sorts them all and loses none |
| `DispatchSort.SweepGoesOn` | linux-2.6.28.6/block/elevator.c:430-466 | serving the head of a sorted run moves end_sector so that the rest is sorted from there: the sweep goes on in one direction |
| `DispatchRuns.MovedExactly` | linux-2.6.28.6/block/elevator.c:430-466 | a run sorted from one boundary is sorted from another if and only if the sectors between the two hold all of its requests or none |
| `DispatchRuns.SortedExactly` | linux-2.6.28.6/block/elevator.c:430-775 | over every history of sorted and tail dispatches, barriers, insertions at both ends, requeues, fetches and removals, with end_sector and boundary_rq moving as in the code: the tail run is sorted from end_sector after every event if and only if no move of end_sector cuts the run there is (and nothing earlier is added behind it) |
| `DispatchRuns.SweepsSorted` | linux-2.6.28.6/block/elevator.c:430-775 | if only elv_dispatch_sort fills the list, with requests of one kind that do not overlap, and the driver takes them from the head, the tail is always sorted from where the request being served ends |
| `DispatchRuns.FetchCuts` | linux-2.6.28.6/block/elevator.c:764-767 | a history with a write and two reads after which the tail is not sorted, and the read that is dispatched next goes before both |
| `DispatchRuns.EndIsBoundary` | linux-2.6.28.6/block/elevator.c:468-710 | from when a request is added at the tail by the scheduler, or as a new boundary, end_sector is its end, over every history, until it is handed out or another one is added so |
| `DispatchRuns.EndIsServed` | linux-2.6.28.6/block/elevator.c:775-782 | handing out the boundary, or anything while there is none, moves end_sector to the end of the request handed out, and leaves no boundary |
| `DispatchRuns.InsertedNotPassed` | linux-2.6.28.6/block/elevator.c:430-679 | over every history: elv_dispatch_sort puts no later request before one that was inserted at either end or put back |
| `MergeHash.LastMerged` | linux-2.6.28.6/block/elevator.c:524-550 | over every run last_merge is the request merged last, as long as that stays in the scheduler and mergeable |
| `MergeHash.FirstAdded` | linux-2.6.28.6/block/elevator.c:618-634 | while there is none, the first request added that can be merged takes its place |
| `MergeHash.LookupExact` | linux-2.6.28.6/block/elevator.c:347-367 | a lookup finds a request iff some mergeable request in the scheduler ends at the sector, and drops from its chain only requests that can never be merged |
| `MergeHash.AddKeeps` | linux-2.6.28.6/block/elevator.c:618-634 | adding keeps hash and scheduler in agreement |
| `MergeHash.FrontMergeKeeps` | linux-2.6.28.6/block/elevator.c:524-535 | a front merge needs no rehash: the end sector, and so every chain, is unchanged, and lookups stay exact |
| `MergeHash.BackMergeKeeps` | linux-2.6.28.6/block/elevator.c:524-535 | a back merge moves the request to the chain of its new end sector and keeps lookups exact |
| `MergeHash.JoinKeeps` | linux-2.6.28.6/block/elevator.c:537-550 | merging two requests repositions the one and removes the other, and keeps lookups exact |
| `MergeHash.RefuseKeeps` | linux-2.6.28.6/block/blk-merge.c:339-403 | losing mergeability keeps lookups exact |
| `MergeHash.LeaveKeeps` | linux-2.6.28.6/block/elevator.c:322-331 | a request that leaves the scheduler is in no chain afterwards |
| `MergeHash.HashAgrees` | linux-2.6.28.6/block/elevator.c:322-550 | in every reachable state the lookup agrees with a linear search of the scheduler, nr_sorted is the number of requests, and last_merge is mergeable or nothing |
| `Elevator.Elevator.RqhashFind` | linux-2.6.28.6/block/elevator.c:347-367 | walks one chain, pruning as it goes, with the result and the chains of the model's search |
| `Elevator.Elevator.SearchChain` | linux-2.6.28.6/block/elevator.c:347-367 | the loop that removes while it walks gives what the recursive search gives |
| `SegmentMerge.WalkLegal` | linux-2.6.28.6/block/blk-merge.c:141-193 | both walks cut the pieces of a request, none lost or reordered, into legal segments (SegmentMerge.LegalExactly says what that is in memory) |
| `SegmentMerge.MapSg` | linux-2.6.28.6/block/blk-merge.c:141-193 | the loop over the pieces writes one scatterlist entry for each segment of the walk; the bytes of physical memory that the entries name, in order, are exactly those of the pieces |
| `SegmentMerge.LegalExactly` | linux-2.6.28.6/block/blk-merge.c:141-193 | pieces with data may be one segment if and only if they are one, or clustering is on and their bytes are one unbroken stretch of physical memory, no longer than the limit, between two multiples of the segment boundary |
| `SegmentMerge.MapCovers` | linux-2.6.28.6/block/blk-merge.c:159-185 | whatever legal partition the entries are made from, they give the device the bytes of the pieces, in order, and no others |
| `SegmentMerge.CountExact` | linux-2.6.28.6/block/blk-merge.c:41-95 | the count is the size of a partition in which high pages stand alone, and no such partition is smaller |
| `SegmentMerge.CountSegments` | linux-2.6.28.6/block/blk-merge.c:41-95 | the counting loop returns the number of segments of the strict walk, in which high pages stand alone |
| `SegmentMerge.MapOptimal` | linux-2.6.28.6/block/blk-merge.c:141-193 | no legal partition of the pieces has fewer segments than the scatterlist |
| `SegmentMerge.MapWithinCount` | linux-2.6.28.6/block/blk-merge.c:41-193 | the scatterlist never has more entries than the count that the request keeps |
| `RequestSegments.CountedWitness` | linux-2.6.28.6/block/blk-merge.c:41-95 | a recount is the size of some legal partition whose first and last segments are no longer than the recorded sizes; recorded sizes are never lowered, and raised to those of the segments at most |
| `RequestSegments.AppendWitness` | linux-2.6.28.6/block/blk-merge.c:225-294 | after a bio is merged in front or behind, the running sum still is the size of a legal partition |
| `RequestSegments.GlueWitness` | linux-2.6.28.6/block/blk-merge.c:111-135 | when two requests are found contiguous, gluing the last segment of the one to the first of the other is legal, so one segment fewer is still the size of a legal partition |
| `RequestSegments.ContiguousExactly` | linux-2.6.28.6/block/blk-merge.c:111-135 | when the recorded sizes are those of the end segments, two requests are found contiguous if and only if the last segment of the one and the first of the other may be one segment |
| `RequestSegments.WithinLimits` | linux-2.6.28.6/block/blk-merge.c:225-334 | after any history no merge has taken a request over either limit on segments |
| `RequestSegments.MergedWhenRoom` | linux-2.6.28.6/block/blk-merge.c:225-334 | and no merge is refused that would stay within them |
| `RequestSegments.SizesExact` | linux-2.6.28.6/block/blk-merge.c:41-334 | after every history in which bios bring no sizes from before and no contiguous requests are refused a merge, the recorded sizes are exactly those of the first and last segment of a legal partition of nr_phys_segments segments |
| `RequestSegments.RefusedRaises` | linux-2.6.28.6/block/blk-merge.c:296-334 | when contiguous requests are refused a merge, pieces and counts stay, and the size at the far end of a request of one segment is raised to that of the segment that was not made |
| `RequestSegments.MergeWitness` | linux-2.6.28.6/block/blk-merge.c:296-334 | merging two requests keeps the count the size of a legal partition, with or without the minus one |
| `RequestSegments.HasWitness` | linux-2.6.28.6/block/blk-merge.c:41-334 | after any history of bio merges, request merges, refused request merges (which raise the recorded sizes all the same) and partial completions the count is the size of some legal partition |
| `RequestSegments.ScatterlistFits` | linux-2.6.28.6/block/blk-merge.c:41-334 | so a scatterlist of nr_phys_segments entries cannot overflow, after any such history |
| `PartialCompletion.BytesLeft` | linux-2.6.28.6/block/blk-core.c:1675-1786 | completing n bytes leaves exactly the memory after the first n, in order, and the request is finished iff nothing was left |
| `PartialCompletion.InParts` | linux-2.6.28.6/block/blk-core.c:1675-1786 | completing a bytes and then b bytes is completing a + b bytes |
| `PartialCompletion.EndedInOrder` | linux-2.6.28.6/block/blk-core.c:1675-1786 | the bios ended so far followed by those left are always the original chain |
| `PartialCompletion.EndedWith` | linux-2.6.28.6/block/blk-core.c:125-159 | a bio that ends is told the error of the call that ends it; without one, -EIO if an earlier call failed on it, and otherwise success |
| `PartialCompletion.ErrorsReachTheRightBios` | linux-2.6.28.6/block/blk-core.c:125-159 | over any sequence of partial completions each bio is ended at most once, in order, and with an error exactly when a failing call touched it |
| `RequestBios.Request.Walk` | linux-2.6.28.6/block/blk-core.c:1708-1766 | the loop over bios and vectors, editing the chain as it goes, stops where the bytes end |
| `RequestBios.Request.EndThatRequestFirst` | linux-2.6.28.6/block/blk-core.c:1675-1786 | the whole function, in place, is the completion of the model; it asks for more iff bios are left |
| `TagMap.TagsDistinct` | linux-2.6.28.6/block/blk-tag.c:337-381 | two live requests never have the same tag |
| `TagMap.RefusedExactly` | linux-2.6.28.6/block/blk-tag.c:337-381 | a request is refused exactly when every tag from zero (for a sync request) or from a quarter of max_depth (for others) up to max_depth is held by a live request |
| `TagMap.StartsLeast` | linux-2.6.28.6/block/blk-tag.c:337-381 | a request that is not refused gets the least free tag, from zero on for a sync request and from a quarter of max_depth on for others, and no other tag changes |
| `TagMap.ResizeKeeps` | linux-2.6.28.6/block/blk-tag.c:220-265 | a resize that does not overrun keeps the map integral |
| `TagMap.ResizeKeepsTags` | linux-2.6.28.6/block/blk-tag.c:220-265 | a resize keeps every live request at its tag, never lowers the real depth, and sets max_depth as asked or clamped |
| `TagMap.MemcpyExact` | linux-2.6.28.6/block/blk-tag.c:258-260 | copying n elements one by one gives the first n from the source and the rest from the destination if they fit, and otherwise goes out of bounds at the length of the destination |
| `TagMap.ResizedIs` | linux-2.6.28.6/block/blk-tag.c:220-265 | the whole resize, with its two copies (the bitmap word by word), in closed form: a lower limit, a refusal, a longer map with the old requests and bits, or a copy out of bounds |
| `TagMap.OverrunsExactly` | linux-2.6.28.6/block/blk-tag.c:106-137 | one of the copies goes out of bounds if and only if the map is not shared and the depth grows beyond an old real depth that is itself above twice the requests; the first element out of bounds is that of the clamped depth |
| `TagMap.OverrunReached` | linux-2.6.28.6/block/blk-tag.c:106-265 | a run from an admitted initial depth with a request in flight, after which, with nr_requests lowered, a resize does so |
| `TagMap.InvalidateReturns` | linux-2.6.28.6/block/blk-tag.c:396-402 | invalidation frees every tag and puts the requests at the front of the queue in the order in which they were started |
| `TagMap.InvalidateUndoesStarts` | linux-2.6.28.6/block/blk-tag.c:337-402 | starting any number of requests from the head of the queue and invalidating gives back the queue as it was |
| `TagMap.AlwaysIntegral` | linux-2.6.28.6/block/blk-tag.c:106-402 | over every run of start, end, requeue, resize and invalidate: tags are distinct, bit t is set iff slot t holds the request with tag t, and the busy list holds exactly the tagged requests |
| `TagQueue.Queue.FindNextZero` | linux-2.6.28.6/block/blk-tag.c:364-369 | the bit scan returns the first clear bit from the offset on |
| `TagQueue.Queue.StartTag` | linux-2.6.28.6/block/blk-tag.c:337-381 | in place, the start of the model; refused with nothing changed when no tag is free |
| `TagQueue.Queue.InvalidateTags` | linux-2.6.28.6/block/blk-tag.c:396-402 | the loop over the busy list is the invalidation of the model |
| `TagQueue.Queue.NewMap` | linux-2.6.28.6/block/blk-tag.c:106-260 | new arrays of the given depth, with the old entries copied in and the rest free and clear; the copy succeeds exactly when the old arrays are no longer |
| `TagQueue.CopyInto` | linux-2.6.28.6/block/blk-tag.c:258-260 | the copying loop replaces the first elements by the whole source exactly when the source is no longer than the destination |
| `TagQueue.Queue.ResizeTags` | linux-2.6.28.6/block/blk-tag.c:220-265 | the resize of the model: only the limit when it shrinks or fits, -EBUSY with nothing changed for a shared map, new arrays with the old contents when it grows, or the index at which the copy leaves them |
| `ChainIvSteps.MoveInv` | linux-2.6.28.6/crypto/chainiv.c:122-261 | every access to shared state, by any caller or work item, keeps the ownership invariant |
| `ChainIvTheorems.MutualExclusion` | linux-2.6.28.6/crypto/chainiv.c:143-261 | at most one agent is between taking and giving up the IV, over all interleavings, and then INUSE is set and no work is pending |
| `ChainIvTheorems.ScheduledOnce` | linux-2.6.28.6/crypto/chainiv.c:122-141 | the work item is never scheduled while it is pending: the BUG_ON cannot fire |
| `ChainIvTheorems.IvsChained` | linux-2.6.28.6/crypto/chainiv.c:160-178 | every request is given the IV left by the last successful request or seeding before it, or what the context held at first |
| `ChainIvTheorems.OwnResults` | linux-2.6.28.6/crypto/chainiv.c:160-261 | every caller gets its own error code or the answer to its own enqueue, and every completion carries the code of its own encryption |
| `ChainIvTheorems.AnswerExact` | linux-2.6.28.6/crypto/chainiv.c:143-158 | a request is answered -EBUSY exactly when 100 are queued already and -EINPROGRESS otherwise, is left out exactly when it then may not backlog, and is queued last otherwise |
| `ChainIvTheorems.NoOvertaking` | linux-2.6.28.6/crypto/chainiv.c:180-205 | in every reachable state a caller that has taken the bit goes on to encrypt its own request exactly when every request accepted so far has been taken from the queue |
| `ChainIvTheorems.SchedulesTheRest` | linux-2.6.28.6/crypto/chainiv.c:122-141 | in every reachable state an agent that leaves schedules the work, with the bit still set, exactly when an accepted request has not been taken from the queue |
| `ChainIvTheorems.AtQuiescence` | linux-2.6.28.6/crypto/chainiv.c:122-261 | with no agent active and no work pending: INUSE is clear, each accepted request was completed or is queued, and the queue is empty unless a failed seeding stranded it |
| `ChainIvTheorems.NothingLeftBehind` | linux-2.6.28.6/crypto/chainiv.c:122-261 | if seeding never fails, the queue is then empty and exactly the accepted requests were completed |
| `ChainIvSeeding.SeedsOnce` | linux-2.6.28.6/crypto/chainiv.c:207-232 | over every interleaving the random source is asked at most once, and before anything is encrypted |
| `ChainIvSeeding.SeededExactly` | linux-2.6.28.6/crypto/chainiv.c:160-232 | a request is served with an IV that goes back to the random source if and only if the one attempt to seed did not fail |
| `ChainIvSeeding.SeededBeforeUse` | linux-2.6.28.6/crypto/chainiv.c:160-232 | if the random source does not fail, every encryption comes after the seeding |
| `ChainIvSeeding.FailedSeedingServes` | linux-2.6.28.6/crypto/chainiv.c:207-232 | for every error of the random source there is a run in which the next caller is served, with success, with what the context held at first |
| `ChainIvTheorems.FailedSeedingStrands` | linux-2.6.28.6/crypto/chainiv.c:207-232 | for every error of the random source there is a run that ends at rest with a request in the queue that nobody will serve |
| `Bytes.CryptoXor` | linux-2.6.28.6/crypto/algapi.c:752-767 | xor by words and then by bytes is the xor of the byte strings, in place, and touches nothing else |
| `Bytes.IncCounts` | linux-2.6.28.6/crypto/algapi.c:723-749 | read as a big-endian number, the increment is +1 modulo 256^size |
| `Bytes.CryptoInc` | linux-2.6.28.6/crypto/algapi.c:736-749 | the word loop with the byte loop behind it is the byte-wise increment with carry |
| `Bytes.IncByte` | linux-2.6.28.6/crypto/algapi.c:723-734 | the byte loop finishes an increment that has carried to its end |
| `Cbc.RoundTrip` | linux-2.6.28.6/crypto/cbc.c:90-191 | decryption undoes encryption, on the whole blocks of any input |
| `Cbc.RoundTripBack` | linux-2.6.28.6/crypto/cbc.c:90-191 | encryption undoes decryption |
| `Cbc.EncryptedSplit` | linux-2.6.28.6/crypto/cbc.c:90-112 | encrypting any split of the input piece by piece, carrying the IV, is encrypting the whole |
| `Cbc.DecryptedSplit` | linux-2.6.28.6/crypto/cbc.c:169-191 | the same for decryption |
| `Cbc.ChainIsLast` | linux-2.6.28.6/crypto/cbc.c:42-191 | the IV left behind is the last cipher block, or the IV given when there was none |
| `Cbc.Textbook` | linux-2.6.28.6/crypto/cbc.c:42-64 | block k of the output is the encryption of block k xor cipher block k - 1 |
| `CbcWalk.WholeIsRounding` | linux-2.6.28.6/crypto/cbc.c:90-112 | the part processed is the length rounded down to blocks |
| `CbcWalk.EncryptSegment` | linux-2.6.28.6/crypto/cbc.c:42-64 | the two-buffer loop writes the CBC encryption, leaves the chaining IV, and returns the bytes left over |
| `CbcWalk.EncryptInPlace` | linux-2.6.28.6/crypto/cbc.c:66-88 | the in-place loop gives the same output and final IV |
| `CbcWalk.DecryptSegment` | linux-2.6.28.6/crypto/cbc.c:114-138 | the two-buffer loop writes the CBC decryption and leaves the last cipher block as IV |
| `CbcWalk.DecryptInPlace` | linux-2.6.28.6/crypto/cbc.c:140-167 | the in-place loop gives the same output and final IV |
| `CbcWalk.DecryptBackward` | linux-2.6.28.6/crypto/cbc.c:140-167 | going from the last block to the first, so that each still finds its predecessor, equals the forward decryption |
| `CbcWalk.Encrypt` | linux-2.6.28.6/crypto/cbc.c:90-112 | over any chunking, with pieces in place or not, the output and the final IV are those of one pass over the whole |
| `CbcWalk.Decrypt` | linux-2.6.28.6/crypto/cbc.c:169-191 | the same for decryption |
| `Ctr.SelfInverse` | linux-2.6.28.6/crypto/ctr.c:121-150 | encrypting twice from the same counter gives back the input, for every length |
| `Ctr.Split` | linux-2.6.28.6/crypto/ctr.c:121-150 | a stream cut at a block boundary continues from the counter left behind |
| `Ctr.Textbook` | linux-2.6.28.6/crypto/ctr.c:49-119 | byte i of the output is byte i of the input xor byte i of the key stream of its block |
| `Ctr.CounterCounts` | linux-2.6.28.6/crypto/ctr.c:49-119 | after n bytes the counter has grown by the number of blocks begun, modulo 256^size |
| `Ctr.CryptSegment` | linux-2.6.28.6/crypto/ctr.c:68-92 | the two-buffer loop writes the stream encryption of the whole blocks and leaves their counter |
| `Ctr.CryptInPlace` | linux-2.6.28.6/crypto/ctr.c:94-119 | the in-place loop gives the same |
| `Ctr.CryptFinal` | linux-2.6.28.6/crypto/ctr.c:49-66 | the last, short block uses the start of its key stream block and steps the counter |
| `Ctr.Crypt` | linux-2.6.28.6/crypto/ctr.c:121-150 | over any chunking the output and the final counter are those of the whole |
| `Cts.StolenParts` | linux-2.6.28.6/crypto/cts.c:73-157 | stealing is CBC of the zero-padded message with the last two blocks swapped and the end cut off; the tail is done as the code does it, and the IV left is that of the swapped block |
| `Cts.ReturnedParts` | linux-2.6.28.6/crypto/cts.c:159-250 | decryption of a stolen message is CBC decryption of the head and the tail rule on the rest |
| `Cts.TailRoundTrip` | linux-2.6.28.6/crypto/cts.c:73-217 | on the last two blocks decryption undoes encryption, for every length from one to two blocks |
| `Cts.RoundTrip` | linux-2.6.28.6/crypto/cts.c:73-250 | for every length of at least one block, decryption undoes encryption |
| `Cts.RoundTripBack` | linux-2.6.28.6/crypto/cts.c:73-250 | and encryption undoes decryption |
| `Cts.LeftByDecryption` | linux-2.6.28.6/crypto/cts.c:159-250 | decryption leaves the same chaining IV as the encryption of what it returns |
| `Cts.HeadInBlocks` | linux-2.6.28.6/crypto/cts.c:125-157 | the head passed to CBC is all but the last two blocks, counting a short one |
| `Cts.EncryptTail` | linux-2.6.28.6/crypto/cts.c:73-123 | the buffer juggling on the last two blocks computes the stolen tail and leaves its first block as IV; too short an input is refused |
| `Cts.DecryptTail` | linux-2.6.28.6/crypto/cts.c:159-217 | the same for decryption |
| `Cts.Encrypt` | linux-2.6.28.6/crypto/cts.c:125-157 | inputs of every length: the empty one is refused, up to one block is CBC of a whole block (read beyond a shorter input), longer ones give the stolen encryption of the same length and the IV of the definition |
| `Cts.Decrypt` | linux-2.6.28.6/crypto/cts.c:219-250 | the same for decryption, with the IV that encryption leaves |
| `Ccm.MsgLenExact` | linux-2.6.28.6/crypto/ccm.c:58-74 | a length is accepted up to 2^(8L) (always when L >= 4), and is written faithfully exactly when it is below 2^(8L) |
| `Ccm.LengthWraps` | linux-2.6.28.6/crypto/ccm.c:58-74 | for L = 2 and L = 3 the length 2^(8L) is accepted and written as zero |
| `Ccm.FirstDecodes` | linux-2.6.28.6/crypto/ccm.c:123-143 | the first block determines nonce, tag size, whether there is associated data, and the message length up to the two that are written alike |
| `CcmStandard.FirstBlock` | linux-2.6.28.6/crypto/ccm.c:123-143 | as in section 2.2 of RFC 3610: the flags are 64 Adata + 8 (M - 2) / 2 + L - 1 as a number, then the nonce, then the length as a big-endian number whenever it is below 2^(8L) |
| `CcmStandard.AdataHeader` | linux-2.6.28.6/crypto/ccm.c:145-162 | the length of the associated data below 2^16 - 2^8 is a big-endian number of two bytes, and from there on one of four bytes behind 0xff, 0xfe |
| `CcmStandard.FillIs` | linux-2.6.28.6/crypto/ccm.c:203-243 | padding appends the least number of zeros that makes whole blocks |
| `CcmStandard.MacAppend` | linux-2.6.28.6/crypto/ccm.c:164-201 | the MAC starts from the given block, and each block more is mixed into it and encrypted |
| `CcmStandard.TagTextbook` | linux-2.6.28.6/crypto/ccm.c:245-278 | as in section 2.2 of RFC 3610: the tag, before it is cut and encrypted, is the last of the values that start from zeros and mix in and encrypt block after block of the first block, the padded header and associated data if there are any, and the padded message |
| `CcmStandard.CounterIs` | linux-2.6.28.6/crypto/ccm.c:280-300 | as in section 2.3 of RFC 3610: from counter block k on, counter mode uses the blocks that hold the same flags and nonce and k, k + 1 and so on as big-endian numbers |
| `CcmStandard.SealedTextbook` | linux-2.6.28.6/crypto/ccm.c:302-353 | byte i of what encryption returns is byte i of the message mixed with byte i mod 16 of the encryption of counter block 1 + i / 16, and the tag follows, mixed with the encryption of counter block 0 |
| `Ccm.AdataDecodes` | linux-2.6.28.6/crypto/ccm.c:145-162 | the encoding of the associated-data length determines the length and where the data begins |
| `Ccm.PrefixExact` | linux-2.6.28.6/crypto/ccm.c:58-278 | for all legal ivs and accepted lengths: one formatted input is a prefix of another if and only if nonce and associated data agree and the messages are equal, or the one is empty and the other has the length 2^(8L) that is written as zero |
| `Ccm.PrefixFree` | linux-2.6.28.6/crypto/ccm.c:123-278 | so among messages whose length is in its field none is a prefix of another: the MAC sees different strings for different messages |
| `CcmWalk.MacSplit` | linux-2.6.28.6/crypto/ccm.c:164-201 | the running block and the unused rest after a + b are those after a followed by rest and b |
| `CcmWalk.MacFill` | linux-2.6.28.6/crypto/ccm.c:203-243 | one final block for a non-empty rest, padded with zeros, is the MAC of the zero-padded data |
| `CcmWalk.TagParts` | linux-2.6.28.6/crypto/ccm.c:245-278 | absorbing first block, associated data and payload one after the other is the CBC-MAC of the formatted concatenation |
| `CcmWalk.Context.ComputeMac` | linux-2.6.28.6/crypto/ccm.c:164-201 | with any amount already buffered, the new odata and idata are those of the concatenation, and ilen stays below 16 |
| `CcmWalk.Context.GetData` | linux-2.6.28.6/crypto/ccm.c:203-243 | for any split of the data into pieces the result is the MAC of the padded concatenation, with the buffer empty afterwards |
| `CcmWalk.Context.Auth` | linux-2.6.28.6/crypto/ccm.c:245-278 | odata is the CBC-MAC tag of the formatted message, independent of how data and payload are cut; the same error when the length does not fit |
| `CcmWalk.Context.Encrypt` | linux-2.6.28.6/crypto/ccm.c:302-353 | in place, with any cuts and any walk, computes exactly the sealed message or its error |
| `CcmWalk.Context.Decrypt` | linux-2.6.28.6/crypto/ccm.c:372-429 | in place, with any cuts and any walk, computes exactly the opened message or its error |
| `CcmSeal.NonceStays` | linux-2.6.28.6/crypto/ccm.c:302-429 | for a message that fits the length field the counter never changes the nonce, so both sides format the same first block |
| `CcmTheorems.OpensWhatWasSealed` | linux-2.6.28.6/crypto/ccm.c:302-429 | for lengths that fit: decryption yields p exactly when the input is the encryption of p (accepts and inverts, and accepts nothing else) |
| `CcmTheorems.InvertsExactly` | linux-2.6.28.6/crypto/ccm.c:372-429 | decryption accepts exactly what encryption produces if and only if the counter does not carry out of a length field that the message overflows |
| `CcmTheorems.OpenEscapes` | linux-2.6.28.6/crypto/ccm.c:372-429 | otherwise there is a tag with which decryption accepts a text that encryption refuses to produce |
| `CcmTheorems.SomeEscape` | linux-2.6.28.6/crypto/ccm.c:372-429 | such an iv exists, for a message of 2^20 bytes |
| `CcmTheorems.SealRefuses` | linux-2.6.28.6/crypto/ccm.c:302-353 | encryption refuses every message that does not fit, with -EOVERFLOW |
| `CcmTheorems.OpenRefuses` | linux-2.6.28.6/crypto/ccm.c:372-429 | so does decryption, unless the counter has carried into the byte that says how long the field is |
| `CryptoQueue.EnqueueAccurate` | linux-2.6.28.6/crypto/algapi.c:670-688 | an enqueue keeps the pointer at list index max_qlen (the list head when the list is not longer), answers -EBUSY exactly when the queue is full, and takes the request unless it is full and may not wait |
| `CryptoQueue.DequeueAccurate` | linux-2.6.28.6/crypto/algapi.c:691-707 | a dequeue takes the first and moves the pointer so that it marks index max_qlen again |
| `CryptdTheorems.RunOnceInOrder` | linux-2.6.28.6/crypto/cryptd.c:560-596 | over every run the completed requests are a prefix of the accepted ones: each runs once, in order |
| `CryptdTheorems.ToldOnceBefore` | linux-2.6.28.6/crypto/cryptd.c:80-108 | -EINPROGRESS goes once to exactly the requests whose enqueue returned -EBUSY, in order, and before their completion |
| `CryptdTheorems.PointerExact` | linux-2.6.28.6/crypto/cryptd.c:560-596 | in every reachable state the pointer marks index max_qlen, and everything from there on was told -EBUSY |
| `CryptdTheorems.AtRest` | linux-2.6.28.6/crypto/cryptd.c:560-596 | when the queue is empty and the worker idle, everything accepted has run and everyone who had to wait was told |
| `CryptdTheorems.TrappedExactly` | linux-2.6.28.6/crypto/cryptd.c:80-146 | from every state that keeps the invariant and has no trapped request: after any run, no request that is owed a completion carries the worker's own function if and only if no submission that the queue took did |
| `CryptdTheorems.CompletedExactly` | linux-2.6.28.6/crypto/cryptd.c:80-146 | for every run from the empty queue: the worker alone can complete everything accepted and come to rest if and only if every submission that the queue took came with its caller's completion function |
| `CryptdCallers.CarriesExactly` | linux-2.6.28.6/crypto/cryptd.c:80-146 | over every run, a request that is not in flight carries the worker's own completion function exactly when it was refused and has not been given its callback anew since; in particular completion gives back the caller's |
| `CryptdCallers.CompletedIffCareful` | linux-2.6.28.6/crypto/cryptd.c:80-146 | the same as CompletedExactly in terms of what a caller sees: exactly when no request is taken that was refused before and has not been given its callback anew |
| `CryptdTheorems.WorkerGoesOn` | linux-2.6.28.6/crypto/cryptd.c:80-146 | after such a run the worker is never held up: its next step is enabled as long as a request is queued or held |
| `CryptdTheorems.TrappedRun` | linux-2.6.28.6/crypto/cryptd.c:128-146 | for every queue length a run that fills the queue and submits one request twice, after which that request is accepted and carries the worker's own completion function |
| `CryptdTheorems.RefusedThenCaught` | linux-2.6.28.6/crypto/cryptd.c:128-146 | a refused request that is submitted again unchanged carries the worker's own completion function as its caller's |
| `CryptdTheorems.CaughtForGood` | linux-2.6.28.6/crypto/cryptd.c:80-108 | and is then never completed, whatever happens |

## Left out

- Changes of the ordering mode while a sequence runs, `elv_abort_queue`, discard barriers and the FUA flag: the model fixes the mode for a run; FUA only drops the post-flush, which the mode parameter covers.
- The ordering of tagged modes: their sequences are covered by the exactly-once results, but the order in which a device executes tagged requests is the device's.
- Merges in the barrier model: merging changes what a request transfers, not where it stands; `MergeHash` and `Deadline` model merges.
- File-system requests that a driver inserts at the front of the list: only a requeue puts them there in the model.
- What `prep_rq_fn` makes of a request at the head (defer, kill): the model takes the case in which it succeeds.
- RequestQueue.Queue.Next: covers the inner loop, over the list; the outer loop calls `elevator_dispatch_fn` when the list is empty, which is a step of its own in the model (OrderedProgress.EveryRunEnds interleaves the two).
- RequestQueue.Queue.DrainElevator: a forced dispatch is any move of one request to the end of the list; what the deadline and CFQ schedulers move is in `Deadline` and `Cfq`.
- OrderedAhead.NeverStuck: covers the inner loop, over the list; assumes that owners of special requests have dropped their references, because a late put is what ends the drain then.
- OrderedTheorems.BarrierSafety: is about runs in which only file-system requests carry the hard-barrier flag; OrderedCondition says exactly what other adds do.
- The memory model under `chainiv`: steps are sequentially consistent, the child cipher is synchronous, and allocation flags are not modelled.
- `deadline`: `last_sector` is written but never read and is not modelled; `sysfs` tunables are fixed during a run, and a negative `writes_starved`, which acts like zero, is left out.
- `cfq`: how keys, slices and priorities are computed from the clock, idle timers, cooperators, preemption, the active cic and the per-direction and metadata counters.
- CfqOrder.LeftmostIsLeast: the keys of queues that are not idle may be any numbers; jiffies and keys do not wrap around.
- Cfq.FifoAfter: whether the absorbed request is older is an input, in place of the comparison of `start_time`.
- Cfq.SelectionHasWork: whether the slice is used up and whether the scheduler idles are inputs; when they hold is not modelled.
- Cfq.Round: which requests have expired is an input, one flag for each turn; the slice expiry that may close a round is a step of its own.
- Cfq.CachesAgree: the place where a walk down the tree ends is an input here; CfqOrder.LeftmostIsLeast adds class and key.
- CfqScheduler.Scheduler.DispatchRequests: as Cfq.Round.
- The anticipatory scheduler, `as-iosched.c`: the same indexes as deadline and CFQ, with timers.
- Segment counts are unbounded numbers here; the 16-bit and 32-bit fields of the kernel, requests without data, the sector limits, DMA padding and the drain buffer are not modelled.
- `MergeHash.Fn` is the hash of 64-bit machines; the proofs use only that it stays in the table.
- Tag maps shared between queues: only the refusal to resize one is modelled. Memory-allocation failures are not.
- What a copy beyond the end of an array does to other memory: TagQueue.Queue.ResizeTags stops there and reports the index.
- `__end_that_request_first`: sector counters, integrity data and the path for the barrier proxy (which is in the barrier model) are not modelled.
- The page mapping, alignment buffers and flags of the block cipher walk: a walk is any sequence of chunk lengths, each in place or from one buffer to another, and chunks are copied in and out.
- What lies in memory behind a CTS input shorter than one block: the buffer that the code reads is the input of the model.
- CCM lengths of 2^32 or more, which the interface cannot express, and the RFC 4309 wrapper.
- CcmWalk.Context.Encrypt: messages within 16 bytes of 2^32, for which the length handed to the counter mode wraps in 32 bits, are left out; an asynchronous child cipher is not modelled, its completion callbacks do what the synchronous path does.
- CcmWalk.Context.Decrypt: likewise.
- The hash half of `cryptd`, which shares the queue, and stopping the worker thread.
- The worker of `cryptd` is a machine over its critical sections rather than a loop, since callers run between them.
- The internals of block ciphers: any keyed permutation stands for them.
- User-space interfaces (`sysfs`, `ioctl`, SCSI commands, tracing) and module registration.

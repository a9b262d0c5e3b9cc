# Linux 2.6.29 block layer and two crypto parts, in Dafny

This project models the ordering, merging and scheduling core of the Linux 2.6.29
block layer, the CBC mode of its crypto layer and the parser of its algorithm
names, and proves what they keep over whole runs, over all inputs and over any
way of cutting the work into pieces.  `dafny verify dfyconfig.toml` checks all of
it.

| files | what they model |
|---|---|
| `Barrier`, `BarrierOrder`, `BarrierPromise`, `BarrierExact`, `BarrierLive`, `BarrierDisk`, `BarrierQueue` | drain-mode write barriers: the dispatch list, the flush/barrier/flush sequence, requeues, the driver, and the order in which the device completes the work |
| `DispatchSort` | the one-way elevator insertion into the dispatch list |
| `Segments` | counting, merging and mapping the physical segments of a request |
| `Completion` | partial completion of a chain of bios |
| `SectorList`, `AsCache` | sector trees and fifos; the best-request cache of the anticipatory scheduler |
| `Vr`, `VrWait` | the V(R) scheduler: its neighbour cache and choice, and how long expired requests wait |
| `Deadline`, `DeadlineTight`, `DeadlineRead`, `DeadlineScan`, `DeadlineAccount`, `DeadlineQueue` | the deadline scheduler: its waiting bounds, the scan over the sectors, what becomes of each request, its data in place |
| `AsBatch`, `AsConserve`, `AsTurn`, `AsMachine` | the batch and anticipation state machine of the anticipatory scheduler |
| `BfqTree`, `BfqActive` | BFQ's active tree with its minimum start times, and the search in it |
| `BfqSched`, `BfqIdle`, `BfqLag`, `BfqEntitled`, `BfqDispatch` | BFQ's flat scheduler: weight sums, idle lists, budgets, expiry, fairness of the start times, also through idle times |
| `MemXor`, `Cbc`, `CbcLoops`, `CbcWalk` | `crypto_xor`, the CBC recurrences, the four CBC loops on memory, whole requests |
| `AlgName`, `AlgGrammar` | building and parsing algorithm names, and the exact grammar of what is accepted |

The usual shape is: step functions on values with an invariant and a theorem over
every run, and beside them a class or array methods that update state in place, as
the original does, and are proved to do exactly those steps.

## What turned out differently

- **Barriers.** A special request that carries the hard barrier flag switches the
  queue's colour without starting a sequence; `drivers/block/pktcdvd.c:783` adds
  such requests.  The promises hold in every run in which an even number of them
  is added between any two consecutive file system requests, those before the first
  one not counting.  That is exact: an order of arrival is safe in every run if and
  only if it is even in this sense or has no barrier in it (`EvenIsExact`).
  `HardSpecialBreaksTheWait` is a short run that breaks a promise, with a barrier
  write at the driver while an earlier request is still on the list.
- **Deadline bound.** As long as no batch has been counted, an alias can leave a
  cached next request behind, which costs one dispatch more.  `ExpiredWriteLeaves`
  gives the bound from every reachable state, with that one added where it applies.
  `BoundNeedsADispatch` gives a run that needs all of it, for every positive
  `fifo_batch` and any number of writes ahead.
- **Deadline reads.** Reads are preferred, yet an expired read is bounded to wait if and
  only if `writes_starved` is not zero (`ExpiredReadLeaves`, `ReadStarves`).
- **Deadline scan.** A batch, and a new batch of the direction just served, goes on
  with the request that was next above the last one moved when that one left.  A request
  that arrives, or moves by a front merge, into the gap later on is passed over
  (`NewcomerPassedOver`); the lowest queued request above the last one moved is sent if
  and only if that one is still above and no such newcomer lies below it
  (`NewcomersDecide`).
- **Completion.** Completing `a` and then `b` bytes equals completing `a + b` bytes
  for every chain when `b` is positive.  A further completion of no bytes differs
  exactly after a stop right before an empty bio, which it ends (`SplitsExactly`).
- **Anticipatory cache.** Choosing between the two neighbours of a dispatched
  request finds the best remaining one if and only if nothing that starts inside it
  hides a better one: for requests within the backward seek limit, if and only if
  every request above one that starts inside lies more than twice as far beyond the
  end as that one lies before it (`BestAfterDispatch`, `ClearWithinLimit`,
  `OverlapHidesTheBest`).
- **BFQ search.** The comment above `bfq_first_active_entity` promises the eligible
  entity with the least finish time.  The code delivers it exactly when the last
  node it visits is eligible (`FoundIffEligible`); on the tree, it misses that entity
  exactly when it lies in the right subtree of a node in the left subtree of an
  eligible one (`MissedIffShadowed`, `LaterEntityServed`).  The model follows the
  code.
- **BFQ idle list and clock.** An idle insertion keeps `last_idle` at the end of the
  idle tree if and only if the new entity is not due together with the last one
  (`TieLosesLast`); a run then leaves it unset beside a non-empty idle tree
  (`LastIsLost`).  Forgetting idle entities can move virtual time back
  (`ForgetMovesBack`), and in some run it does (`TimeRunsBack`).
- **V(R) penalty.** The code compares the remainder that `do_div` returns, not the
  quotient.  `PenaltyDiffers` says exactly when the choice is another one,
  `FarRequestTaken` gives an instance, and `ExtremesSwap` shows that the settings
  which the introduction of the scheduler calls shortest seek first and pure scan
  each behave as the other.

## Model

| member | source | states |
|---|---|---|
| BarrierOrder.StepKeepsInv | kernel/block/blk-barrier.c:55-284 | every add, dispatch, issue, dequeue, requeue and completion keeps the epoch order of the dispatch list, the accounting of stages and the emptiness that each stage relies on, when file system requests are added in the colour of the epoch |
| BarrierOrder.NextKeepsInv | kernel/block/elevator.c:753-829 | showing the head of the list to the driver, which may start, skip or finish a whole sequence, keeps that order |
| BarrierOrder.RequeueKeepsInv | kernel/block/elevator.c:643-671 | a request put back during a sequence lands where the order still holds |
| BarrierOrder.CompleteKeepsInv | kernel/block/elevator.c:922-952 | completions, including the last drained request and each stage of a sequence, keep the order |
| BarrierOrder.AddKeepsInv | kernel/block/elevator.c:688-723 | adding with the queue colour, also a hard special request before any file system request, and draining the elevator behind a barrier, keep the order |
| BarrierOrder.RequeuePosIsRight | kernel/block/elevator.c:657-671 | the requeue walk passes exactly the entries of earlier stages that are in front |
| BarrierPromise.NothingPassesABarrier | kernel/block/blk-barrier.c:238-284 | in every run with an even number of hard special requests between file system requests, no file system request added after a barrier reaches the driver before the barrier is complete |
| BarrierPromise.BarriersComeLast | kernel/block/blk-barrier.c:91-114 | in those runs a barrier is complete only when everything added before it is |
| BarrierPromise.SequencesWait | kernel/block/blk-barrier.c:156-284 | in those runs a flush or barrier request reaches the driver only in its own stage, with everything added before its barrier complete, across requeues and several queued barriers |
| BarrierPromise.NoAssertionFails | kernel/block/blk-barrier.c:91-114 | in those runs no stage completes twice, no request comes late to its stage, the count in flight never underflows |
| BarrierPromise.StagesOnlyAdvance | kernel/block/blk-barrier.c:55-114 | each step adds stage bits to the running sequence or ends it with its barrier done; the current stage never falls back |
| BarrierPromise.HardSpecialBreaksTheWait | kernel/block/elevator.c:688-705 | a concrete run with one hard special request in which the barrier write overtakes an earlier request |
| BarrierExact.EvenIsSafe | kernel/block/elevator.c:688-705 | requests arriving in an order with an even number of hard special requests between file system requests are safe on every queue and in every run |
| BarrierExact.NoBarrierIsSafe | kernel/block/blk-barrier.c:238-262 | requests without a barrier among them are safe too |
| BarrierExact.OddBreaks | kernel/block/elevator.c:657-671 | for every other order that has a barrier in it, a run on a queue with forced unit access in which a request overtakes an earlier barrier or a sequence does not wait |
| BarrierExact.EvenIsExact | kernel/block/blk-barrier.c:62-88 | for every order of arrival: the promises hold in all its runs if and only if the number is even throughout or there is no barrier |
| BarrierLive.StepKeepsAwake | kernel/block/elevator.c:939-952 | a drain with nothing at the driver always has a request it waits for at the head of the list |
| BarrierLive.NeverStuck | kernel/block/blk-barrier.c:62-88 | in every such run, with nothing at the driver, the next call shows it a request while a sequence runs, and otherwise unless it leaves the list empty |
| BarrierDisk.StepTold | kernel/block/blk-barrier.c:116-135 | every completion belongs to the epoch and stage of the moment, and the work recorded for each barrier is what its stages have behind them |
| BarrierDisk.BarrierIsOnDisk | kernel/block/blk-barrier.c:156-236 | in every such run, for each complete barrier the device has completed exactly a flush, the write and a flush, as the mode and the emptiness of the barrier ask, each once and in this order |
| BarrierDisk.InOrderOnDisk | kernel/block/blk-barrier.c:55-114 | all device work for a barrier comes after the completion of everything added before it, and before that of anything added after |
| BarrierQueue.RequestQueue.CompleteSeq | kernel/block/blk-barrier.c:91-114 | the in-place update sets the stage bits once and ends the sequence when all are set |
| BarrierQueue.RequestQueue.StartOrdered | kernel/block/blk-barrier.c:156-236 | pushes the stages in order, skips those not needed, completes the skipped ones |
| BarrierQueue.RequestQueue.UnderSequence | kernel/block/blk-barrier.c:263-284 | lets through the current stage and special requests only; the late-request warning cannot trigger |
| BarrierQueue.RequestQueue.NextRequest | kernel/block/elevator.c:737-829 | the loop over the head of the list does the step the run theorems speak about, and returns nothing only for an empty list or a running sequence that makes the head wait |
| BarrierQueue.RequestQueue.DequeueRequest | kernel/block/elevator.c:832-846 | removes a started entry and counts it in flight |
| BarrierQueue.RequestQueue.RequeueRequest | kernel/block/elevator.c:559-574 | takes a request back from the driver and reinserts it by its ordering stage |
| BarrierQueue.RequestQueue.CompleteRequest | kernel/block/elevator.c:922-952 | finishes a request or stage, and the drain stage when the last request before it is done |
| BarrierQueue.RequestQueue.AddRequest | kernel/block/elevator.c:688-723 | colours, drains and inserts as the step does, for every class of request; the order of the list is kept unless a file system request comes in the wrong colour |
| DispatchSort.SortPosIsRight | kernel/block/elevator.c:437-473 | the walk passes exactly the longest tail of requests of the same kind that are no barrier, not started, and later in the sweep that goes up from the boundary and then up from sector 0 |
| DispatchSort.SortKeepsSweep | kernel/block/elevator.c:437-473 | inserting keeps the pending list in one-way sweep order from the boundary sector |
| DispatchSort.IssueKeepsSweep | kernel/block/elevator.c:753-780 | moving the boundary to the end of the issued request keeps the rest in sweep order |
| DispatchSort.DispatchList.Sort | kernel/block/elevator.c:437-473 | the loop inserts at the specified position and moves nothing else |
| DispatchSort.DispatchList.Add | kernel/block/elevator.c:437-473 | with disjoint extents of one kind the list stays a sweep and gains exactly the new request |
| DispatchSort.DispatchList.Issue | kernel/block/elevator.c:753-780 | the issued request comes first of all pending ones in sweep order, and the list behind it is a sweep from its end |
| Segments.FullerCostsAtMostOne | kernel/block/blk-merge.c:146-198 | starting a greedy cut with a fuller segment costs at most one segment more |
| Segments.GreedyIsOptimal | kernel/block/blk-merge.c:146-198 | the greedy cut uses no more segments than any acceptable cut |
| Segments.ChainIsOneRange | kernel/block/blk-merge.c:62-78 | pieces with data form one segment exactly when the queue clusters and they are adjacent within one boundary window, with no high page among several pieces when pages may be bounced |
| Segments.CutIsShortest | kernel/block/blk-merge.c:146-198 | the greedy cut is an acceptable cut and no acceptable cut is shorter |
| Segments.Melted | kernel/block/blk-merge.c:116-140 | melting the border segments of two cuts is again an acceptable cut when the border pieces touch and the sizes fit |
| Segments.CountedMelt | kernel/block/blk-merge.c:301-339 | the count less one and the new end sizes describe the melted cut |
| Segments.CountedSide | kernel/block/blk-merge.c:252-299 | counts add and outer end sizes stay when nothing melts |
| Segments.MapSg | kernel/block/blk-merge.c:146-198 | the entries written are the addresses and lengths of the shortest cut, segment by segment |
| Segments.RecalcSegments | kernel/block/blk-merge.c:41-98 | the counting loop yields exactly the number of segments of the shortest cut that keeps high pages apart, and raises the two end sizes to exactly those of its first and last segment |
| Segments.Recount | kernel/block/blk-merge.c:105-113 | recounting one bio gives that number and those sizes |
| Segments.Request.BackMerge | kernel/block/blk-merge.c:252-274 | accepted if and only if the summed sectors and the old count plus the bio's count are within the limits; then the pieces are appended and the new count is that sum, else nothing changes; counts stay those of some cut |
| Segments.Request.FrontMerge | kernel/block/blk-merge.c:276-299 | the same in front, with the same condition and count |
| Segments.Request.MergeRequests | kernel/block/blk-merge.c:301-408 | joins two requests exactly when the summed sectors and the summed count, less one where the chains touch, are within the limits; the new count is that sum and describes a cut |
| Segments.Request.MergeTouching | kernel/block/blk-merge.c:321-338 | the border case: accepted exactly when the lowered count is within both limits |
| Segments.Request.Map | kernel/block/blk-merge.c:146-198 | for a request built by any merges the number of entries written never exceeds nr_phys_segments |
| Completion.CompleteDrops | kernel/block/blk-core.c:1730-1824 | completing n bytes leaves the old byte ranges without the first n, and every bio is ended or left, in order |
| Completion.EndsWhenDone | kernel/block/blk-core.c:140-177 | for every chain, a bio is ended exactly when all its bytes are among those completed and, unless it is the first, more bytes are completed than those before it |
| Completion.SplitsExactly | kernel/block/blk-core.c:1730-1824 | for all chains and amounts, two completions equal one of the sum if and only if the second is not of zero bytes or the first did not stop right before an empty bio |
| Completion.WalkBio | kernel/block/blk-core.c:1763-1802 | the walk inside a bio stops in the piece where the completed bytes end |
| Completion.CompletionRequest.EndWholeBios | kernel/block/blk-core.c:1754-1762 | the outer loop ends whole bios and leaves the remainder to the walk |
| Completion.CompletionRequest.EndThatRequestFirst | kernel/block/blk-core.c:1730-1824 | the chain updated in place is the specified one, bios end once and in order, and more is pending exactly when bios are left |
| SectorList.AtOrAbove | kernel/block/elevator.c:1220-1229 | finds the lowest request at or above a sector, or none |
| SectorList.Below | kernel/block/elevator.c:1208-1217 | finds the highest request below a sector, or none |
| SectorList.Find | kernel/block/elevator.c:412-429 | finds a request starting at a sector, or proves there is none |
| SectorList.SearchIsUnique | kernel/block/elevator.c:380-429 | with distinct start sectors these searches have one answer |
| Vr.CachedAfterAdd | kernel/block/vr-iosched.c:72-94 | comparing a new request with the two cached ones keeps both equal to the neighbour search |
| Vr.VrData.AddRqRb | kernel/block/vr-iosched.c:72-94 | an alias is dispatched first and is what is returned, and both cached requests stay the neighbours of the head |
| Vr.VrData.DelRqRb | kernel/block/vr-iosched.c:96-113 | removing a cached request replaces it by its tree neighbour; its assertions hold |
| Vr.VrData.MoveRequest | kernel/block/vr-iosched.c:193-212 | dispatch moves the head and both caches follow |
| Vr.VrData.FrontMerged | kernel/block/vr-iosched.c:158-169 | a front merge repositions the request, dispatching an alias of the new sector, and keeps the caches and the waiting order right |
| Vr.VrData.MergedRequests | kernel/block/vr-iosched.c:172-184 | absorbing a request hands on the earlier deadline and its fifo place |
| Vr.VrData.ChooseRequest | kernel/block/vr-iosched.c:255-283 | picks one of the two neighbours of the head, none only if nothing is queued; which one is decided by the remainder of the distance in the direction of the head |
| Vr.PenaltyDiffers | kernel/block/vr-iosched.c:269-283 | the remainder rule and the quotient rule choose differently exactly when the other distance separates quotient and remainder |
| Vr.FarRequestTaken | kernel/block/vr-iosched.c:274-282 | with penalty 10 a request 20 sectors ahead is taken over one a single sector behind |
| Vr.ExtremesSwap | kernel/block/vr-iosched.c:9-13 | penalty 1 keeps going in the direction of the head and penalty 0 takes the nearest request, each what is promised for the other |
| Vr.VrData.CheckFifo | kernel/block/vr-iosched.c:217-244 | an expired fifo head is found whenever there is one, due no later than any other expired head |
| Vr.VrData.DispatchRequests | kernel/block/vr-iosched.c:285-306 | after more than fifo_batch dispatches an expired request due no later than each expired fifo head is sent and the count restarts; otherwise the neighbour of the head that the rule takes; 0 only when nothing is queued; head, direction and count move as stated |
| VrWait.StepKeepsOrder | kernel/block/vr-iosched.c:116-306 | adds, aliases, front merges, merges and dispatches keep both fifos in deadline order |
| VrWait.TurnServes | kernel/block/vr-iosched.c:292-295 | when the fifos have their turn, one of the requests due leaves |
| VrWait.ExpiredLeave | kernel/block/vr-iosched.c:285-306 | from every reachable state, of k requests due by a time that has passed none is left after k(fifo_batch+1)+1 dispatches, whatever arrives or is merged meanwhile |
| Vr.VrData.Drain | kernel/block/elevator.c:576-588 | repeated dispatch empties the scheduler and dispatches every request once |
| AsCache.AheadIsTotalOrder | kernel/block/as-iosched.c:297-364 | the choice compares by a total order of start sectors relative to the last sector |
| AsCache.LowerIsTaken | kernel/block/as-iosched.c:285-364 | the lower of two sectors is taken exactly when both are in front of the head, both too far behind, or the upper one is more than twice as far in front as the lower one is behind |
| AsCache.BestAfterBest | kernel/block/as-iosched.c:372-394 | after removing the best request, choosing between its neighbours gives the best of the rest |
| AsCache.BestAfterDispatch | kernel/block/as-iosched.c:974-1003 | after dispatching any request, choosing between its neighbours gives the best of the rest relative to its end if and only if nothing that starts inside it hides a better one |
| AsCache.ClearWithinLimit | kernel/block/as-iosched.c:974-1003 | for requests within the backward seek limit, nothing is hidden exactly when each request above one that starts inside lies more than twice as far beyond the end |
| AsCache.DisjointIsClear | kernel/block/as-iosched.c:974-1003 | requests with disjoint extents hide nothing |
| AsCache.OverlapHidesTheBest | kernel/block/as-iosched.c:974-1003 | a concrete overlap for which it is not the best |
| AsCache.BestAfterAdd | kernel/block/as-iosched.c:790-795 | comparing a new request with the cached one keeps the cache best |
| AsCache.AsLane.FindNextRq | kernel/block/as-iosched.c:372-394 | chooses between the neighbours of a request, wrapping to the first; none only if it is the only one |
| AsCache.AsLane.RemoveQueuedRequest | kernel/block/as-iosched.c:899-923 | the cache stays the minimum of the whole sort list, and stays filled while anything is queued; disjoint extents with a minimal cache stay so |
| AsCache.AsLane.MoveToDispatch | kernel/block/as-iosched.c:974-1018 | dispatch of any request moves the last sector and leaves the cache minimal exactly if the request hid nothing, so always while extents are disjoint |
| AsCache.AsLane.AddRequest | kernel/block/as-iosched.c:1187-1213 | for any extents, aliases are dispatched first; the cache is minimal afterwards exactly if it was, or the alias hid nothing, or the new request is the minimum; disjoint extents with a minimal cache stay so when the new one fits in |
| AsCache.AsLane.MergedRequests | kernel/block/as-iosched.c:1283-1304 | absorbing another request keeps the cache minimal, and absorbing the contiguous one keeps the extents disjoint |
| AsCache.AsLane.DispatchAll | kernel/block/as-iosched.c:1046-1055 | forced dispatch through the cache empties the list, every request once, whether or not the cache is minimal |
| Deadline.SearchIsRight | kernel/block/deadline-iosched.c:62-74 | the request that follows in sector order is the lowest one at or above the sector searched for |
| Deadline.StepKeepsInv | kernel/block/deadline-iosched.c:77-327 | adds, aliases, merges and dispatches keep fifos, tree and cached requests in step |
| Deadline.DispatchWrite | kernel/block/deadline-iosched.c:245-327 | each dispatch that does not take a late write lowers the number of dispatches it can still wait |
| Deadline.ExpiredWriteLeaves | kernel/block/deadline-iosched.c:207-327 | from every reachable state an expired write with k writes ahead leaves within (k+1)(writes_starved+1)max(1,fifo_batch) dispatches, for any later arrivals, merges and aliases, and one more as long as no batch was counted |
| DeadlineTight.BoundNeedsADispatch | kernel/block/deadline-iosched.c:77-95 | for every positive fifo_batch and every k, a run before the first dispatch in which a write with k ahead is still queued after (k+1)(writes_starved+1)fifo_batch dispatches |
| DeadlineRead.DispatchRead | kernel/block/deadline-iosched.c:245-327 | each dispatch that does not take a late read lowers the number of dispatches it can still wait |
| DeadlineRead.ExpiredReadLeaves | kernel/block/deadline-iosched.c:262-300 | with positive writes_starved, from every reachable state an expired read with k reads ahead leaves within (k+2+k/writes_starved)max(1,fifo_batch) dispatches, and one more as long as no batch was counted |
| DeadlineRead.ReadStarves | kernel/block/deadline-iosched.c:262-300 | with writes_starved zero, for every number of dispatches a run in which the oldest, expired read is still queued after them |
| DeadlineScan.StepKeepsScan | kernel/block/deadline-iosched.c:77-237 | through adds, aliases, merges and dispatches the cached request stays the lowest one above the last request moved among those that were there then, by the sectors they had then |
| DeadlineScan.RunSends | kernel/block/deadline-iosched.c:245-327 | from every reachable state a dispatch sends the request this scan, the expired fifo head and the turn of the writes decide on |
| DeadlineScan.NewcomersDecide | kernel/block/deadline-iosched.c:310-314 | the request the scan has next is the lowest queued one above the last one moved if and only if it is still above and no newcomer lies below it |
| DeadlineScan.ScanIsSectorOrder | kernel/block/deadline-iosched.c:62-74 | without newcomers the scan is the order of the sectors |
| DeadlineScan.NewcomerPassedOver | kernel/block/deadline-iosched.c:207-237 | for all tunables, a run in which a read that arrived at sector 20 waits while the one at sector 50 follows the one at 10 |
| DeadlineScan.EarlierDeadlineTaken | kernel/block/deadline-iosched.c:171-189 | a merged request is due when the earlier of the two was and stands in its place |
| DeadlineAccount.StepAccounts | kernel/block/deadline-iosched.c:77-327 | each operation neither loses nor doubles a request |
| DeadlineAccount.NothingLost | kernel/block/deadline-iosched.c:77-327 | in every run a request that arrived is either queued, or was put on the dispatch list once, or was merged into another one |
| DeadlineQueue.DeadlineData.AddRequest | kernel/block/deadline-iosched.c:101-113 | the in-place update is the step of the run theorems; exactly the alias of the new request, if any, goes to the dispatch list |
| DeadlineQueue.DeadlineData.MergedRequest | kernel/block/deadline-iosched.c:156-168 | the front-merge repositioning is the step; exactly the alias of the new sector goes to the dispatch list |
| DeadlineQueue.DeadlineData.MergedRequests | kernel/block/deadline-iosched.c:171-189 | taking over an earlier deadline and its place is the step; nothing is dispatched |
| DeadlineQueue.DeadlineData.DispatchRequests | kernel/block/deadline-iosched.c:245-327 | which request is put on the dispatch list: the one the scan has next while the batch lasts, else in the direction whose turn it is the fifo head if it has expired or the scan does not go on there, else the one the scan has next; how both counters move; 0 only when both fifos are empty |
| AsBatch.StepKeepsInv | kernel/block/as-iosched.c:422-499 | every operation keeps one direction outstanding, matching request states, and an armed or firing timer while anticipating |
| AsBatch.DispatchKeepsInv | kernel/block/as-iosched.c:1061-1182 | a dispatch call, whichever way it decides, keeps that |
| AsBatch.CompletedKeepsInv | kernel/block/as-iosched.c:841-891 | a completion, also the one that ends a batch change, keeps that |
| AsBatch.OneDirection | kernel/block/as-iosched.c:1061-1182 | in every unforced run all dispatched and not completed requests share one direction, the old one during a batch change |
| AsBatch.NoAssertionFails | kernel/block/as-iosched.c:422-499 | no assertion or warning triggers, a batch change has requests outstanding, anticipation has a process and, once its request is done, a timer |
| AsBatch.WriteBatchIsBounded | kernel/block/as-iosched.c:958-969 | while reads wait, a write batch sends no more writes than it has left |
| AsTurn.DispatchDecides | kernel/block/as-iosched.c:1061-1182 | what a dispatch call does, told by queues and batch: an expired batch with both directions queued turns to the other one, an expired read goes first, a promising process is waited for, else the expired or the cached request of the batch is sent, and an empty direction is left |
| AsTurn.DispatchNotesIdle | kernel/block/as-iosched.c:1061-1065 | a write batch is marked as untimed exactly when it ran out while no reads waited |
| AsTurn.CompletionDecides | kernel/block/as-iosched.c:841-891 | a change of direction ends with the last outstanding request, a read batch starts its clock with its first completed read, and the awaited completion starts the timer |
| AsTurn.AddDecides | kernel/block/as-iosched.c:790-807 | a new request goes to the end of its queue and ends a wait exactly if it is a good one |
| AsTurn.WaitsAtMostOnce | kernel/block/as-iosched.c:422-499 | between two requests sent, every run waits for a process at most once |
| AsTurn.ReadBatchIsBounded | kernel/block/as-iosched.c:958-969 | once the time of a read batch is up and writes wait, no read is sent before the turn to writes |
| AsTurn.WriteBatchLearns | kernel/block/as-iosched.c:812-835 | the write batch shrinks exactly after taking too long against waiting reads and grows exactly after using up its writes early, by one or by a factor of two |
| AsTurn.SlowerMeansFewer | kernel/block/as-iosched.c:812-835 | the longer a write batch took, the smaller the next one |
| AsConserve.MoveDispatchesOne | kernel/block/as-iosched.c:974-1018 | exactly the chosen request leaves its queue for the driver's side, the other queue is untouched, and anticipation is over |
| AsConserve.DispatchConserves | kernel/block/as-iosched.c:1025-1182 | a dispatch call, whichever way it decides, neither loses nor doubles a request |
| AsConserve.NothingLost | kernel/block/as-iosched.c:841-1213 | in every run the requests added are those completed or merged away and those still queued or dispatched, each as often |
| AsMachine.AsData.DispatchRequest | kernel/block/as-iosched.c:1025-1182 | the branches and jumps on the fields send, wait or turn as the decision table says, the assertions hold, and 1 is returned exactly when one request was sent |
| AsMachine.AsData.CompleteRequest | kernel/block/as-iosched.c:841-891 | the in-place update is the step; its state and count assertions hold and the invariant is kept |
| AsMachine.AsData.AddRequest | kernel/block/as-iosched.c:1187-1213 | the in-place update is the step and keeps the invariant |
| AsMachine.AsData.TimedOut | kernel/block/as-iosched.c:472-499 | anticipation is over after the timer's handler, whatever happened since it fired |
| BfqTree.UpdateCleans | kernel/block/bfq-sched.c:236-263 | recomputing a node whose children are right makes it right |
| BfqTree.UpdateActiveTree | kernel/block/bfq-sched.c:275-293 | walking up from a node and repairing the sibling at each level makes every stored minimum right and keeps the order |
| BfqTree.TurnAboveKeeps | kernel/lib/rbtree.c:72-135 | the rotation that ends an insertion keeps the order of the entities |
| BfqTree.TurnAboveAlmost | kernel/lib/rbtree.c:72-135 | and spoils minima only on the path and beside it |
| BfqTree.ShiftAllKeeps | kernel/lib/rbtree.c:138-222 | any rotations of a deletion keep the order, the lowest changed node, and spoil minima only on the path and beside it |
| BfqActive.FindPlace | kernel/block/bfq-sched.c:202-224 | the descent finds the place after the entities due no later |
| BfqActive.InsertedSorted | kernel/block/bfq-sched.c:202-224 | insertion keeps the order by finish time |
| BfqActive.LinkedKeeps | kernel/block/bfq-sched.c:305-322 | after linking and rotating, the walk may start at the new node's left child, else its right child, else itself |
| BfqActive.DeepestIsLowest | kernel/block/bfq-sched.c:354-373 | the node found before a removal is the lowest one it changes |
| BfqActive.UnlinkedKeeps | kernel/lib/rbtree.c:224-289 | unlinking takes out exactly one entity, also when the successor moves up |
| BfqActive.ServiceTree.ActiveInsert | kernel/block/bfq-sched.c:305-322 | the tree gains the entity at its place; order, distinctness and all minima are right |
| BfqActive.ServiceTree.ActiveExtract | kernel/block/bfq-sched.c:380-394 | the tree loses exactly that entity; order, distinctness and all minima are right |
| BfqActive.MinTells | kernel/block/bfq-sched.c:773-801 | a subtree holds an eligible entity exactly when its stored minimum is not after virtual time |
| BfqActive.DescentFinds | kernel/block/bfq-sched.c:773-801 | the descent finds the first eligible entity in order if it ends at an eligible node, else that one is in the right subtree of the last node |
| BfqActive.FoundIffEligible | kernel/block/bfq-sched.c:763-801 | the eligible entity with the least finish time is returned if and only if the last node visited is eligible |
| BfqActive.FirstIsLeast | kernel/block/bfq-sched.c:763-771 | first in tree order among the eligible means least finish time |
| BfqActive.LaterEntityServed | kernel/block/bfq-sched.c:773-801 | a family of trees, with any right subtree, for which a later entity is returned |
| BfqActive.HidingIsRedBlack | kernel/lib/rbtree.c:72-135 | with one node on the right such a tree satisfies the red-black rules |
| BfqActive.MissedIffShadowed | kernel/block/bfq-sched.c:773-801 | the first eligible entity is missed exactly when it lies in the right subtree of a node in the left subtree of an eligible one |
| BfqActive.FirstActive | kernel/block/bfq-sched.c:773-801 | the loop's assertions hold and it returns an eligible entity of the tree |
| BfqActive.ServiceTree.LookupNext | kernel/block/bfq-sched.c:751-822 | virtual time jumps to the least start time if needed, forgetting the first idle entity that is then due; what is found is eligible, and has the least finish time exactly when the last node visited is eligible |
| BfqActive.LookupNextEntity | kernel/block/bfq-sched.c:837-861 | an eligible entity comes from the first class that has an active one, and the other classes stay as they are |
| BfqActive.WrapCompares | kernel/block/bfq-sched.c:88-91 | wrapped timestamps compare like unbounded ones less than half the range apart |
| BfqSched.StepKeepsInv | kernel/block/bfq-sched.c:428-687 | creation, priority and class changes, activation, deactivation, selection, dispatch of a request of any size, full charges, expiry and forgetting keep sums, links, idle lists and budget |
| BfqSched.DispatchedInv | kernel/block/bfq-iosched.c:930-950 | a request that fits the budget left is served and one that does not expires the queue, after a full charge or not; service never exceeds the budget |
| BfqSched.ActivatedCore | kernel/block/bfq-sched.c:526-613 | activation from service, active tree, idle tree or nowhere, with any pending priority change, keeps them and divides by a positive weight |
| BfqSched.DeactivatedCore | kernel/block/bfq-sched.c:653-687 | deactivation from anywhere, to the idle tree or forgotten, keeps them |
| BfqSched.ActivatedTimes | kernel/block/bfq-sched.c:566-613 | where an activated entity starts: after the service charged if it was served, at its old start if it was active, at the later of its finish and virtual time if it was idle, at virtual time if it was unknown; and at the new class's virtual time after a class change; it finishes a budget later at its new weight |
| BfqSched.DeactivatedTimes | kernel/block/bfq-sched.c:653-687 | an entity that stops finishes where its service ends, and stays known exactly if asked for and that is after virtual time |
| BfqSched.IdleForgottenCore | kernel/block/bfq-sched.c:463-479 | forgetting an idle entity keeps them and touches no other entity |
| BfqSched.IdleInOk | kernel/block/bfq-sched.c:401-417 | an idle insertion keeps the list sorted, its members exact and the first pointer at its head |
| BfqSched.IdleOutOk | kernel/block/bfq-sched.c:170-192 | an idle extraction likewise, and the last pointer never dangles |
| BfqSched.SumsAndBudgetsHold | kernel/block/bfq-sched.c:490-506 | in every run, with requests of any sizes, each class sum is the weight of its entities on trees or in service, is positive while one is served, and service stays within budget |
| BfqSched.IdlePointersHold | kernel/block/bfq-sched.c:401-417 | in every run the first idle pointer is the idle entity due first, and both pointers name idle entities |
| BfqIdle.TieLosesLast | kernel/block/bfq-sched.c:401-417 | an idle insertion keeps the last pointer at the end of the idle tree if and only if the new entity is not due together with the last one |
| BfqIdle.ExtractionKeepsLast | kernel/block/bfq-sched.c:170-192 | an extraction keeps it there |
| BfqIdle.LastIsLost | kernel/block/bfq-sched.c:183-186 | a run in which two entities due together go idle and the first wakes up, after which the last pointer is unset beside a non-empty idle tree |
| BfqIdle.ForgetMovesBack | kernel/block/bfq-sched.c:468-475 | virtual time moves back exactly when nothing is active and the last idle entity finished earlier |
| BfqIdle.ForgetsTheDue | kernel/block/bfq-sched.c:463-479 | the idle entity due first is forgotten, with its weight, exactly when it is due; no other entity changes |
| BfqIdle.TimeRunsBack | kernel/block/bfq-sched.c:468-475 | a run, whose only selection is of the only active entity, after which serving one more request moves virtual time back |
| BfqLag.StepMoves | kernel/block/bfq-sched.c:566-613 | a backlogged entity's start time moves only when its round ends, by the service charged in that round |
| BfqLag.FairCharge | kernel/block/bfq-sched.c:98-118 | over n rounds at weight w, the service charged in timestamp units less w times the start-time advance lies between 0 and n(w-1) |
| BfqLag.ServiceMovesTime | kernel/block/bfq-sched.c:490-506 | serving moves the virtual time of the class by the service over the summed weight |
| BfqEntitled.StepMovesOn | kernel/block/bfq-sched.c:566-687 | whatever happens to an entity that stays known, its place on the time axis never moves back, and a turn of service moves it by what is charged |
| BfqEntitled.IdlingDoesNotPay | kernel/block/bfq-sched.c:586-597 | from every reachable state, through any activations, turns and idle times at one weight, the service charged never exceeds weight times the advance of the entity's place by more than the rounding: going idle wins nothing back |
| BfqDispatch.BfqData.Activate | kernel/block/bfq-sched.c:566-613 | the in-place update is the step; the start time is the one the state of the entity calls for, and the finish time a budget later |
| BfqDispatch.BfqData.Deactivate | kernel/block/bfq-sched.c:653-687 | the in-place update is the step; finish time after the service, idle exactly if requeued and due later than virtual time |
| BfqDispatch.BfqData.Serve | kernel/block/bfq-sched.c:490-506 | both warnings cannot trigger; service grows by exactly the amount |
| BfqDispatch.BfqData.ChargeFullBudget | kernel/block/bfq-sched.c:518-523 | service becomes the whole budget, without underflow |
| BfqDispatch.BfqData.Expire | kernel/block/bfq-iosched.c:828-853 | the next start or the finish time moves by exactly the charge: the whole budget for a timed-out or asynchronous queue, else the service; the maximum budget adapts by the reason, and the next request fits the new budget |
| BfqDispatch.FeedbackAdapts | kernel/block/bfq-iosched.c:674-725 | how the maximum budget adapts: up by eight steps to the device's maximum when exhausted, down a step to half of it when too idle, three quarters after a timeout, the maximum for an asynchronous queue, unchanged when out of requests |
| BfqDispatch.FeedbackHasDirection | kernel/block/bfq-iosched.c:674-725 | under the device's maximum, exhausting a budget raises it unless it is at the maximum, and being too idle lowers it unless it is at half or less |
| BfqDispatch.BfqData.KeepOrExpire | kernel/block/bfq-iosched.c:870-916 | the queue is kept, unchanged, exactly when its next request fits or it is worth waiting for; otherwise it is settled for timing out, for exhausting its budget or for having no more requests; charging a timed-out queue twice adds nothing |
| BfqDispatch.FittingStep | kernel/block/bfq-iosched.c:930-950 | one more request fits exactly when its size is within what the earlier ones left |
| BfqDispatch.BfqData.DispatchRequests | kernel/block/bfq-iosched.c:922-974 | exactly the requests that fit the budget are dispatched, up to the limit, service never exceeds the budget, the queue expires exactly when one does not fit or it must yield, is charged what it was served, and the one that did not fit will fit next time |
| MemXor.XorWord | kernel/crypto/algapi.c:762-771 | a word operation does four byte operations |
| MemXor.MixRunIsXor | kernel/crypto/algapi.c:756-760 | mixing byte after byte puts the exclusive or in the region and nothing elsewhere |
| MemXor.CryptoXor | kernel/crypto/algapi.c:762-771 | the word loop and the byte loop together do that for any size |
| Cbc.RoundTrip | kernel/crypto/cbc.c:42-138 | decryption undoes encryption for any cipher whose decryption undoes its encryption |
| Cbc.TripRound | kernel/crypto/cbc.c:42-138 | encryption undoes decryption likewise |
| Cbc.EncryptedBlock | kernel/crypto/cbc.c:42-64 | a further block of plaintext is mixed with the last block of ciphertext, or the vector, and encrypted; less than a block is left alone |
| Cbc.DecryptedBlock | kernel/crypto/cbc.c:114-138 | a further block of ciphertext is decrypted and mixed with the block of ciphertext before it |
| Cbc.EncryptedJoins | kernel/crypto/cbc.c:90-112 | encrypting pieces with the carried vector equals encrypting the joined data |
| Cbc.DecryptedJoins | kernel/crypto/cbc.c:169-191 | the same for decryption |
| CbcLoops.EncSegmentIs | kernel/crypto/cbc.c:42-64 | the out-of-place encryption loop leaves the recurrence's text, the next vector, and all else unchanged |
| CbcLoops.EncryptSegment | kernel/crypto/cbc.c:42-64 | the loop on memory does that and returns the bytes left over |
| CbcLoops.EncryptInPlace | kernel/crypto/cbc.c:66-88 | the in-place loop with its moving vector pointer does the same |
| CbcLoops.PlainPutStep | kernel/crypto/cbc.c:126-133 | one block of out-of-place decryption extends the plaintext by one block of the recurrence |
| CbcLoops.DecryptSegment | kernel/crypto/cbc.c:114-138 | the out-of-place decryption loop leaves the recurrence's plaintext and the last ciphertext block as vector |
| CbcLoops.DecBackIs | kernel/crypto/cbc.c:140-167 | decrypting backwards in place, each block mixed with the ciphertext before it, gives the same plaintext |
| CbcLoops.DecryptInPlace | kernel/crypto/cbc.c:140-167 | the backward loop on memory does that |
| CbcWalk.Crypt | kernel/crypto/cbc.c:90-191 | a request is its pieces one after the other, each in place or out of place |
| CbcWalk.AnySplit | kernel/crypto/cbc.c:90-191 | whatever the pieces, the joined results are one pass over the joined sources, and so is the vector left behind |
| CbcWalk.WalkRoundTrip | kernel/crypto/cbc.c:90-191 | a text encrypted in any pieces of memory and decrypted in any other pieces is the text again, and both leave the same vector |
| AlgName.RoundTrip | kernel/crypto/algboss.c:108-171 | parsing a printed name gives its template and top-level arguments for every nesting and any text after it if there are fewer than CRYPTO_MAX_ATTRS, and is refused otherwise |
| AlgName.OneArgOf | kernel/crypto/algboss.c:118-147 | a printed argument before a separator is read back whole, as a number exactly when it is all digits |
| AlgName.InstanceParses | kernel/crypto/algapi.c:642-648 | every name that fits the name buffer is parsed back, also names with several arguments |
| AlgGrammar.ParsesExactly | kernel/crypto/algboss.c:108-171 | a name is accepted with given parts if and only if it begins with the template word, a parenthesis, those arguments separated by commas, fewer than CRYPTO_MAX_ATTRS, and a parenthesis, each argument a word or a perhaps empty word with a balanced list |
| AlgGrammar.ArgIsRead | kernel/crypto/algboss.c:118-147 | any such argument before a separator is read whole |
| AlgName.ScanWord | kernel/crypto/algboss.c:124-125 | the word loop finds the end of the word and whether it is a number |
| AlgName.ScanList | kernel/crypto/algboss.c:127-141 | the nesting loop finds the matching parenthesis or the end of the name |
| AlgName.ScanArgs | kernel/crypto/algboss.c:117-171 | the attribute loop ends, writes within the attributes, and yields the specified arguments |
| AlgName.ScheduleProbe | kernel/crypto/algboss.c:108-171 | the scan accepts and yields exactly what the grammar does |

## Left out

- Barriers in tag mode or on queues without ordering support, bidirectional requests, discard barriers and proxy completions.
- Segments.Request.Map: is about data requests before padding and drain entries; no-data segment counts, bounce buffers and integrity segments are not modelled.
- Segments: accepted merges are those of the limit checks; whether two requests or bios may be merged at all (flags, sectors, elevator policy) is left to the caller.
- AsCache: front merges, after which the original itself gives up optimality.
- AsBatch: forced dispatch, aliases and failing io_context allocation; think-time and seek statistics, which enter as answers of the dispatch call, as do clock comparisons.
- AsMachine: the request lists are sequences in place of the original's trees and fifos, whose best request `AsCache` is about.
- Deadline.ExpiredWriteLeaves: front merges and request merges are part of the runs; tunables do not change during a run.
- BfqTree.ShiftAllKeeps: rotations are allowed anywhere on the path, so red-black colours and balance are not modelled.
- BfqActive.LookupNextEntity: taking out what is found is `ActiveExtract`; the consistency check against the cached next entity is not modelled.
- BfqActive: timestamps are unbounded integers; `WrapCompares` says when 64-bit ones agree.
- BfqSched: group scheduling, queue reference counts and moves between groups; which entity is picked and where virtual time jumps to are inputs of a selection step, and `BfqActive` says what they are.
- BfqDispatch.BfqData.Expire: peak-rate estimation enters as the answer whether a queue was slow.
- BfqDispatch.BfqData.DispatchRequests: the order in which a queue gives its requests is an input.
- CbcLoops: buffers are disjoint or equal regions of one memory; the block size is any positive number, and the mask of a power-of-two size is the remainder it computes.
- CbcWalk.Crypt: the scatterlist walk that produces the pieces, and partial last blocks, which it never hands over.
- AlgName: numeric arguments keep their text, the conversion to a number is not modelled; starting the probe thread and template lookup.
- Locking, reference counts, timers' real time, and memory allocation everywhere; each queue-locked operation is one step.
- CFQ, noop and SIO schedulers, ioctl and sysfs interfaces, crypto registration and the block ciphers themselves.

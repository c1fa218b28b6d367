# Verified core of MENPS

A Dafny project that models the parts of MENPS whose correctness is hardest to see from the code, and
proves what they promise: the user-level threading library `cmpth`, the allocator behind the shared heap
(`mefdn/src/malloc.impl.h`, Doug Lea's malloc), the page diffs of `mecom2`, and the OpenMP runtime `meomp`.
`dafny verify dfyconfig.toml` checks everything.

## How the system is modelled

Concurrent parts are state machines. Each atomic load, store, exchange and compare-and-swap, and each
section under a spinlock, is one step; a run is any sequence of steps of any threads; every main result is
a statement about every run. Modules named after calls relate the actions of a run to what they lead to: that
every call is answered, that none stops in the middle, and where it ends. A context switch is modelled as saving the running task, running the
callback on the target and resuming the target.

- `WorkerDeque`, `ChaseLev`, `ChaseLevCalls` (with `CircularIndex`): the locked deque as the specification, and the
  Chase-Lev deque with one owner, any number of thieves and reused slots, which linearizes to it.
- `LockQueue`, `McsQueue`, `McsQueueCalls`, `RingQueue`, `RingQueueCalls`: one abstract FIFO lock queue, and the MCS list and the ring
  buffer, which both refine it.
- `Delegator`, `DelegatorCalls`, `McsMutex`, `McsMutexCalls`, `CvBarrier`: the lock delegator, the mutex with its condition variable, and the
  barrier, over the abstract queue.
- `ReturnPool`, `PoolCalls`, `LinkedPool`: the object pool as a state machine split at its spinlock, and its linked
  lists as a class whose calls are shown to be steps of that machine.
- `Continuations`, `TaskSwitch`, `TaskEffects`, `JoinExit`, `CondSuspend`: where task descriptors are, the
  switches between tasks, joining against exiting, and conditional suspension. A continuation is a unique pointer: storing
  into a pointer that is not empty overwrites it, so that nothing is lost only because no step does so.
- `TreeIndex`, `BinMap`, `SmallBins`, `BinTrie`, `TreeBins`, `BoundaryTags`, `Mspace`: the allocator on one
  fixed segment, from the bit arithmetic of bin numbers and bin maps to `mspace_malloc` and `mspace_free`.
- `DiffCodec`: the diff writer, packer and unpacker as methods on byte arrays.
- `StaticLoop`, `OmpCommands`, `OmpBarrier`, `OmpRegion`: the static loop schedule, the command protocol
  between processes, the two-level barrier of a parallel region, and both together for whole programs.
- `Wrappers`: the option type that the others share.

## What the proofs found

- `basic_sync_delegator.hpp:343-346` returns early when a function reports executed, so a thread that
  `execute` returns with it is never woken: `Delegator.WakeUpCanBeLost` is such a run, and
  `Delegator.NoLostWakeUpIff` gives the exact condition.
- The form of `compute_tree_index` compiled for x86-64 keeps 32 bits of the size
  (`malloc.impl.h:1427-1438`) and misplaces some sizes from 2^40 on. `TreeIndex.TruncationHarmlessIff` says
  exactly which; the allocator is modelled with the form that keeps all bits (lines 1470-1486).
- `cmpth/README.markdown:25-26` promises a pool free from exhaustion. The bound holds if a request whose
  node is being created counts as demand (`ReturnPool.CreatedIsBounded`). By the nodes handed out alone it
  holds in every run in which no node of the worker is returned while the worker creates one
  (`ReturnPool.BoundUnlessOvertaken`), and can fail otherwise (`ReturnPool.RequestsInProgressCount`): exactly
  if a request finds no node at the peak with all other workers' buffers full, and then by one
  (`ReturnPool.ExceededIff`).
- The size word of a packed diff has 32 bits. It is enough for every diff of a block if and only if the block
  has at most 954437174 bytes (`DiffCodec.SizeFitsIff`); changing every other byte of a larger one takes 2^32.
- A notifier of the condition variable reads the link of a wait entry after it has made the entry's thread
  runnable (`basic_mcs_cv.hpp:48-49` and `58-59`). It is safe because the thread cannot leave its frame without
  the mutex, which the notifier holds (`McsMutex.LinkIsReadFromLiveFrame`).
- `execute_or_delegate` writes `is_executed_` at line 249, but the unlock that follows overwrites it (lines
  82 and 146), so the write has no effect.

## Model

| member | source | states |
|---|---|---|
| `WorkerDeque.Conservation` | cmpth/include/cmpth/wd/spinlock_worker_deque.hpp:18-62 | over every history of the locked deque, what was pushed is what was popped or stolen plus what is still there, as bags |
| `WorkerDeque.SpinlockDeque.LocalPushTop` | cmpth/include/cmpth/wd/spinlock_worker_deque.hpp:18-24 | appends at the back |
| `WorkerDeque.SpinlockDeque.TryLocalPopTop` | cmpth/include/cmpth/wd/spinlock_worker_deque.hpp:42-51 | takes the back; nothing exactly if the deque is empty |
| `WorkerDeque.SpinlockDeque.TryRemotePopBottom` | cmpth/include/cmpth/wd/spinlock_worker_deque.hpp:53-62 | takes the front; nothing exactly if the deque is empty |
| `CircularIndex.DistinctSlots` | cmpth/include/cmpth/wd/chaselev_worker_deque.hpp:47-52 | two logical indexes less than the array size apart share a slot only if they are equal |
| `ChaseLev.StepKeepsInv` | cmpth/include/cmpth/wd/chaselev_worker_deque.hpp:76-163 | every atomic step of the owner or of a thief keeps the invariant that ties slots, counters and claimed tasks to the logical contents |
| `ChaseLev.Linearizes` | cmpth/include/cmpth/wd/chaselev_worker_deque.hpp:76-163 | in every interleaving the completed operations, in order of their linearization steps, replay on the locked deque and end in the contents |
| `ChaseLev.NoTaskLostOrDuplicated` | cmpth/include/cmpth/wd/chaselev_worker_deque.hpp:76-163 | in every interleaving the tasks pushed are exactly those handed out, plus one claimed by an unfinished pop, plus those still in the deque |
| `ChaseLev.StealTakesFront` | cmpth/include/cmpth/wd/chaselev_worker_deque.hpp:136-163 | a compare-and-swap that succeeds holds the value pushed at that logical index and takes the front, although slots are reused |
| `ChaseLev.CasFreePopIsSafe` | cmpth/include/cmpth/wd/chaselev_worker_deque.hpp:76-111 | the pop without compare-and-swap returns the task it claimed, and no thief whose compare-and-swap can still succeed is at that index |
| `ChaseLev.EmptyStealIsJustified` | cmpth/include/cmpth/wd/chaselev_worker_deque.hpp:136-163 | a steal that finds a range of no tasks sees an empty deque or one whose last task the owner's pop is after |
| `ChaseLev.FailedStealWasOvertaken` | cmpth/include/cmpth/wd/chaselev_worker_deque.hpp:136-163 | a compare-and-swap that fails was overtaken: the top moved past the thief's index |
| `ChaseLevCalls.EveryCallIsAnswered` | cmpth/include/cmpth/wd/chaselev_worker_deque.hpp:76-131 | in every interleaving the owner's calls, read from its actions, are answered one by one and in order: a push by pushed or rejected with its own task, a pop by popped or empty; only the call in progress may lack an answer |
| `ChaseLevCalls.NoGivenTaskLost` | cmpth/include/cmpth/wd/chaselev_worker_deque.hpp:76-163 | in every interleaving every task given to a push call was rejected, handed to a caller, is claimed by an unfinished pop, is in the deque, or its push is in progress, each exactly once |
| `ChaseLevCalls.WaitFree` | cmpth/include/cmpth/wd/chaselev_worker_deque.hpp:76-163 | whatever the others do, a push or pop ends after six steps of the owner and a steal after four of the thief |
| `ChaseLevCalls.StealEndsForAReason` | cmpth/include/cmpth/wd/chaselev_worker_deque.hpp:136-163 | a steal ends by taking the front, by having seen an empty range, or by having been overtaken; a thief that saw a task goes on to its compare-and-swap |
| `ChaseLevCalls.PushAlone` | cmpth/include/cmpth/wd/chaselev_worker_deque.hpp:113-131 | an undisturbed push appends its task, or is rejected exactly if the deque is full |
| `ChaseLevCalls.PopAlone` | cmpth/include/cmpth/wd/chaselev_worker_deque.hpp:76-111 | an undisturbed pop takes the last task and hands it out, or nothing exactly if the deque is empty |
| `ChaseLevCalls.StealAlone` | cmpth/include/cmpth/wd/chaselev_worker_deque.hpp:136-163 | an undisturbed steal takes the first task and hands it out, or nothing exactly if the deque is empty |
| `McsQueue.StepKeepsInv` | cmpth/include/cmpth/sync/basic_mcs_core.hpp:23-124 | every atomic step of enqueuers and of the holder keeps the list, the links and the nodes' places in agreement |
| `McsQueue.RefinesLockQueue` | cmpth/include/cmpth/sync/basic_mcs_queue.hpp:24-64 | every run of the MCS list with node reclamation replays on the abstract lock queue |
| `McsQueue.UnlockableIffAlone` | cmpth/include/cmpth/sync/basic_mcs_core.hpp:93-97 | the test for unlocking says yes exactly when the holder is the only entry |
| `McsQueue.PendingLinkIsLive` | cmpth/include/cmpth/sync/basic_mcs_core.hpp:45-58 | a node whose link is still to be written is in the queue, not reclaimed |
| `McsQueueCalls.EveryCallIsAnswered` | cmpth/include/cmpth/sync/basic_mcs_core.hpp:23-124 | in every interleaving each call of start_lock joins the queue once, and the holder's calls of try_unlock and try_follow_head are answered one by one, in order |
| `McsQueueCalls.WaitFree` | cmpth/include/cmpth/sync/basic_mcs_core.hpp:23-124 | whatever the others do, start_lock with its set_next ends after three steps of the caller and a call of the holder after two |
| `McsQueueCalls.EveryLinkHasItsWriter` | cmpth/include/cmpth/sync/basic_mcs_core.hpp:45-58 | an entry without a published link has its writer: the thread that is about to store it, in the right place |
| `McsQueueCalls.NodesAccounted` | cmpth/include/cmpth/sync/basic_mcs_queue.hpp:24-64 | a node outside the pool belongs to a call that is about to join, is in the queue, or has left it and not been deallocated since |
| `RingQueue.TailCasCounters` | cmpth/include/cmpth/sync/basic_ring_buf_core.hpp:31-78 | if the capacity test passed with a head that may be stale, the ring has a free slot, an even tail means that the lock is free, and the slots computed from the tail are the last entry's and the next free one |
| `RingQueue.StepKeepsInv` | cmpth/include/cmpth/sync/basic_ring_buf_core.hpp:31-159 | every atomic step keeps counters, lock bit, ready flags and queue in agreement |
| `RingQueue.RefinesLockQueue` | cmpth/include/cmpth/sync/basic_ring_buf_queue.hpp:29-81 | every run of the ring buffer replays on the same abstract lock queue as the MCS list |
| `RingQueue.NeverOverfull` | cmpth/include/cmpth/sync/basic_ring_buf_core.hpp:31-78 | never more entries than slots, in spite of stale head reads and of the tail returning to an old value |
| `RingQueue.UnlockableIffAlone` | cmpth/include/cmpth/sync/basic_ring_buf_core.hpp:144-159 | the test for unlocking says yes exactly when the holder is the only entry |
| `RingQueueCalls.EveryCallIsAnswered` | cmpth/include/cmpth/sync/basic_ring_buf_core.hpp:31-159 | in every interleaving each call of start_lock joins the queue once, and the holder's calls are answered one by one, in order |
| `RingQueueCalls.HolderProgresses` | cmpth/include/cmpth/sync/basic_ring_buf_core.hpp:101-142 | whatever the others do, a call of the holder ends after two of its steps |
| `RingQueueCalls.RetriesForAReason` | cmpth/include/cmpth/sync/basic_ring_buf_core.hpp:31-78 | a locker goes round its loop again only if the ring is full by the head it read, which with an up-to-date head means every slot, or its compare-and-swap failed spuriously or because the tail had moved |
| `RingQueueCalls.EveryLinkHasItsWriter` | cmpth/include/cmpth/sync/basic_ring_buf_queue.hpp:29-81 | an entry that is not published has its writer, the thread that is about to set the flag of the right slot |
| `Delegator.StepKeepsInv` | cmpth/include/cmpth/sync/basic_sync_delegator.hpp:27-419 | every step of clients and of the consumer keeps the invariant of token, queue, saved continuations and served requests |
| `Delegator.MutualExclusion` | cmpth/include/cmpth/sync/basic_sync_delegator.hpp:79-191 | at most one client is inside, never together with the consumer; while a client is inside or the lock is free, the consumer sleeps with its continuation saved |
| `Delegator.ServedInOrder` | cmpth/include/cmpth/sync/basic_sync_delegator.hpp:302-360 | the services are a prefix of the requests in arrival order, so each locker is resumed and each function completed once, in order |
| `Delegator.SuspendedUntilServed` | cmpth/include/cmpth/sync/basic_sync_delegator.hpp:61-77 | a suspended locker's request is unserved and its continuation is saved in its node |
| `Delegator.RetriedUntilExecuted` | cmpth/include/cmpth/sync/basic_sync_delegator.hpp:302-360 | a function is tried again only while it reports not executed, and no later one before |
| `Delegator.WakeUpsAccounted` | cmpth/include/cmpth/sync/basic_sync_delegator.hpp:329-360 | in every run, as bags of threads: those that the consumer was given to wake are those woken, the one it holds for waking, and those returned together with executed |
| `Delegator.NoLostWakeUpIff` | cmpth/include/cmpth/sync/basic_sync_delegator.hpp:332-346 | every thread given to the consumer is woken once for each time it was given, or held, if and only if no call of execute reports executed and also returns a thread |
| `Delegator.WakeUpCanBeLost` | cmpth/include/cmpth/sync/basic_sync_delegator.hpp:332-346 | a run from the start in which execute returns a thread together with executed; the thread is neither woken nor held and the consumer goes on |
| `DelegatorCalls.ParkedOnlyToWait` | cmpth/include/cmpth/sync/basic_sync_delegator.hpp:79-231 | in every run a client is parked only if it gave up the lock by unlock_and_wait and has not been resumed since, and outside only if it did not, so unlock always returns |
| `DelegatorCalls.LeavesAsAsked` | cmpth/include/cmpth/sync/basic_sync_delegator.hpp:79-231 | a client that leaves the lock, alone, by handing over or by waking the helper, is parked if it is waiting and outside if not |
| `DelegatorCalls.FreesOnlyWhenIdle` | cmpth/include/cmpth/sync/basic_sync_delegator.hpp:79-191 | an unlocking client tries to free the lock only if the consumer is inactive and, when it is going to wait, no request is unserved; it succeeds exactly if none is |
| `DelegatorCalls.SleepsWhenIdle` | cmpth/include/cmpth/sync/basic_sync_delegator.hpp:386-419 | a consumer with nothing to do sleeps exactly if no request is unserved: it saves its continuation, frees the lock and wakes the thread it holds; otherwise it takes its continuation back |
| `DelegatorCalls.EveryCallIsRequested` | cmpth/include/cmpth/sync/basic_sync_delegator.hpp:27-77 | in every run the requests are, after the starter's, exactly those of the calls, in order |
| `DelegatorCalls.ExecutesWhatWasDelegated` | cmpth/include/cmpth/sync/basic_sync_delegator.hpp:329-350 | in every run each call of execute gets the function that its request delegated |
| `DelegatorCalls.ServesTheNext` | cmpth/include/cmpth/sync/basic_sync_delegator.hpp:302-372 | when the consumer finds an entry not executed it serves the oldest request not served: it resumes the locker and sleeps, or executes the function, which is served exactly if that succeeds |
| `DelegatorCalls.NobodyStops` | cmpth/include/cmpth/sync/basic_sync_delegator.hpp:79-419 | each step of a client or of the consumer brings it closer to the end of its call or round, and while anything is queued a client has the lock or the consumer is at work |
| `DelegatorCalls.NodesComeBack` | cmpth/include/cmpth/sync/basic_sync_delegator.hpp:27-191 | in every run a node outside the pool is an entry of the queue |
| `McsMutex.StepKeepsInv` | cmpth/include/cmpth/sync/basic_mcs_mutex.hpp:33-163 | every step of lockers, unlockers, waiters and notifiers keeps nodes, queue, holder and waiter list in agreement |
| `McsMutex.MutualExclusion` | cmpth/include/cmpth/sync/basic_mcs_mutex.hpp:33-96 | at most one thread holds the mutex in every reachable state |
| `McsMutex.GrantedInOrder` | cmpth/include/cmpth/sync/basic_mcs_mutex.hpp:33-96 | the lock is granted in the order in which it was requested |
| `McsMutex.HandsOverToSuccessor` | cmpth/include/cmpth/sync/basic_mcs_mutex.hpp:72-136 | the thread resumed by an unlock is the one saved in the predecessor's node and the next in the order of requests |
| `McsMutex.WritableNodesAreLive` | cmpth/include/cmpth/sync/basic_mcs_mutex.hpp:58-163 | a node that another thread may still write is not back in the pool |
| `McsMutex.NotifierSeesSavedWaiters` | cmpth/include/cmpth/sync/basic_mcs_cv.hpp:23-66 | when a thread that holds the lock looks at the condition variable, waiting_ is the first entry, entries are linked in order, and each has a saved continuation and a live frame |
| `McsMutex.LinkIsReadFromLiveFrame` | cmpth/include/cmpth/sync/basic_mcs_cv.hpp:44-63 | the notifier reads an entry's link after its thread became runnable: the frame is still there, the thread does not hold the lock, and the link leads to the first entry not notified yet |
| `McsMutexCalls.NotifyWakes` | cmpth/include/cmpth/sync/basic_mcs_cv.hpp:45-53 | a notify by the holder resumes the parked thread of the first entry, which goes on to free its node and lock again, takes its entry off the list, and changes no other thread |
| `McsMutexCalls.NotifyAllWakes` | cmpth/include/cmpth/sync/basic_mcs_cv.hpp:55-66 | notify_all by the holder resumes every waiter, empties the list and changes no other thread |
| `McsMutexCalls.ParkedOnlyToWait` | cmpth/include/cmpth/sync/basic_mcs_mutex.hpp:72-136 | in every run a thread is parked only if it gave up the lock to wait and nobody has resumed it since; it is on its way out only if it unlocked without waiting or has been resumed |
| `McsMutexCalls.StepsGoOn` | cmpth/include/cmpth/sync/basic_mcs_mutex.hpp:33-163 | every step of a thread in the middle of a call brings it closer to the end, except in the loop of an unlock, whose successor's thread is then about to publish its link |
| `McsMutexCalls.EveryLockRequests` | cmpth/include/cmpth/sync/basic_mcs_mutex.hpp:33-56 | in every run each call of lock requests the mutex exactly once |
| `McsMutexCalls.NodesComeBack` | cmpth/include/cmpth/sync/basic_mcs_mutex.hpp:33-163 | in every run a node outside the pool is in the queue or still needed by the one thread that keeps it |
| `McsMutexCalls.WaitEntriesEnd` | cmpth/include/cmpth/sync/basic_mcs_cv.hpp:23-38 | in every run a thread that is inside has no wait entry left: it is gone when wait returns |
| `CvBarrier.StepKeepsInv` | cmpth/include/cmpth/sync/basic_cv_barrier.hpp:26-43 | every step of arriving, sleeping and leaving threads keeps counter, generation and arrivals in agreement |
| `CvBarrier.NobodyLeavesEarly` | cmpth/include/cmpth/sync/basic_cv_barrier.hpp:26-43 | nobody has left round k before everybody arrived at round k, for every k and reuse |
| `CvBarrier.RoundsStayTogether` | cmpth/include/cmpth/sync/basic_cv_barrier.hpp:26-43 | no two threads are more than one round apart |
| `CvBarrier.SleepersHaveAReason` | cmpth/include/cmpth/sync/basic_cv_barrier.hpp:26-43 | a thread sleeps only while its generation is the current one and somebody is still to arrive |
| `CvBarrier.SomebodyCanMove` | cmpth/include/cmpth/sync/basic_cv_barrier.hpp:26-43 | as long as threads keep arriving the barrier never blocks all of them |
| `CvBarrier.EverybodyReturns` | cmpth/include/cmpth/sync/basic_cv_barrier.hpp:26-43 | each step that does anything shrinks a measure of at most seven for each thread, and while all threads are inside somebody can take one, so when all have called all return; a thread outside has returned from every call |
| `ReturnPool.StepKeepsInv` | cmpth/include/cmpth/pool/basic_return_pool.hpp:106-209 | every step, split at the spinlock, keeps places, owners, buffers and the count of created nodes in agreement |
| `ReturnPool.OnePlaceEach` | cmpth/include/cmpth/pool/basic_return_pool.hpp:106-209 | every node ever created is handed out or in exactly one list, once, and only in a list kept for its owner |
| `ReturnPool.OwnerNeverChanges` | cmpth/include/cmpth/pool/basic_return_pool.hpp:106-148 | a node keeps its owner over every run, although allocate writes it again |
| `ReturnPool.BuffersStaySmall` | cmpth/include/cmpth/pool/basic_return_pool.hpp:150-198 | a producer buffer never holds more than the threshold |
| `ReturnPool.CreatedIsBounded` | cmpth/README.markdown:25-26 | the nodes ever created for a worker exceed its demand at some moment of the run by at most (workers - 1) * threshold; demand counts a request whose node is being created |
| `ReturnPool.BoundUnlessOvertaken` | cmpth/README.markdown:25-26 | in every run in which no node of the worker is returned while it creates one, the nodes ever created for it exceed those handed out at some moment by at most (workers - 1) * threshold |
| `ReturnPool.ExceededIff` | cmpth/include/cmpth/pool/basic_return_pool.hpp:126-209 | that bound is exceeded if and only if some request found no node at the peak with all the others' buffers full; then by exactly one, and a node of the worker was returned before the new one was created |
| `ReturnPool.RequestsInProgressCount` | cmpth/include/cmpth/pool/basic_return_pool.hpp:126-147 | without counting that request the bound fails: a run with at most two nodes handed out that creates four, for two workers and threshold 1 |
| `PoolCalls.HandsOutOne` | cmpth/include/cmpth/pool/basic_return_pool.hpp:106-209 | in every run a completed request hands out exactly one node that was not handed out and belongs to the caller, and a return takes back exactly its node |
| `PoolCalls.CallsGoOn` | cmpth/include/cmpth/pool/basic_return_pool.hpp:106-209 | in every run a worker can begin a request whatever its lists hold, one in the middle of a call can always finish it, and others never change where it is |
| `PoolCalls.ReturnThenRequest` | cmpth/include/cmpth/pool/basic_return_pool.hpp:112-124 | what a worker returns of its own it gets back by its next request, and the pool is as before |
| `PoolCalls.ReturnsReachTheOwner` | cmpth/include/cmpth/pool/basic_return_pool.hpp:166-207 | a node of another worker waits in the buffer for it; a full buffer goes as a whole to the owner's list and starts again with the node that did not fit |
| `PoolCalls.TakesOver` | cmpth/include/cmpth/pool/basic_return_pool.hpp:126-141 | a worker with nothing of its own takes over everything returned to it, hands out the first and keeps the rest |
| `LinkedPool.Pool.Allocate` | cmpth/include/cmpth/pool/basic_return_pool.hpp:106-148 | on linked lists: hands out one node that was not, owned by the caller, and a new one exactly if both its lists are empty |
| `LinkedPool.Pool.AllocateLocal` | cmpth/include/cmpth/pool/basic_return_pool.hpp:112-124 | popping con_local is that step of the pool |
| `LinkedPool.Pool.AllocateRemote` | cmpth/include/cmpth/pool/basic_return_pool.hpp:126-141 | taking over con_remote is those two steps of the pool |
| `LinkedPool.Pool.AllocateNew` | cmpth/include/cmpth/pool/basic_return_pool.hpp:143-147 | a new node is those two steps of the pool |
| `LinkedPool.Pool.Deallocate` | cmpth/include/cmpth/pool/basic_return_pool.hpp:150-209 | on linked lists: takes back exactly that node, changes no owner, and leaves the buffer within the threshold |
| `LinkedPool.Pool.DeallocateHere` | cmpth/include/cmpth/pool/basic_return_pool.hpp:166-186 | pushing on con_local or on a buffer that is not full is that step of the pool |
| `LinkedPool.Pool.DeallocateSplice` | cmpth/include/cmpth/pool/basic_return_pool.hpp:187-207 | linking the buffer's last node to con_remote splices the buffer in front of it, and the buffer starts anew: two steps of the pool |
| `TaskSwitch.StepSound` | cmpth/include/cmpth/sct/basic_sct_running_task.hpp:37-81 | stores overwrite: a step that finds the pointers it stores into empty leaves each descriptor in exactly one place and loses none |
| `TaskSwitch.ShapedKept` | cmpth/include/cmpth/wss/basic_worker_task.hpp:24-210 | every step keeps one running task per worker, one continuation in hand exactly in the middle of a switch, and root tasks on their worker |
| `TaskSwitch.LocksKept` | cmpth/include/cmpth/wss/basic_thread_funcs.hpp:144-229 | every step keeps each task lock with the worker that carries it |
| `TaskSwitch.GoneKept` | cmpth/include/cmpth/wss/basic_thread_funcs.hpp:118-168 | every step keeps finished tasks off every stack, and a task that left is finished or in its exit callback |
| `TaskSwitch.ClaimsKept` | cmpth/include/cmpth/wss/basic_suspended_thread.hpp:26-73 | every step keeps the suspended-thread objects that some worker is about to store into empty, and each with one such worker |
| `TaskSwitch.SlotsAreFree` | cmpth/include/cmpth/wss/basic_worker_task.hpp:24-210 | running, hand, previous, root and suspended-thread pointers are empty whenever a step stores into them |
| `JoinExit.StepKeepsInv` | cmpth/include/cmpth/wss/basic_thread_funcs.hpp:118-229 | every step keeps these and the stages of all joins in agreement |
| `JoinExit.NothingOverwritten` | cmpth/include/cmpth/wss/basic_worker_task.hpp:24-210 | no step overwrites a pointer, the joiner slot included |
| `JoinExit.PointersNeverOverwritten` | cmpth/include/cmpth/sct/basic_sct_running_task.hpp:37-81 | in every run a pointer holds at most one task, every step finds the pointers it stores into empty, and none but the worker's running slot goes from one task to another in a step |
| `JoinExit.OneOwner` | cmpth/include/cmpth/sct/basic_sct_running_task.hpp:37-81 | in every run a descriptor is in one of running slots, deques, root slots, joiner slots, suspended threads and local variables, once; alone, if that is a pointer |
| `JoinExit.NoneLost` | cmpth/include/cmpth/wss/basic_worker_task.hpp:24-210 | in every run a task once created stays in some place, although stores overwrite |
| `JoinExit.RootRunsOrWaits` | cmpth/include/cmpth/wss/basic_worker.hpp:78-150 | a worker's root runs on it, or is in its root slot, or in its hand, never in two; the slot holds nothing else; whoever pops finds it filled |
| `CondSuspend.PutBackIsRight` | cmpth/include/cmpth/wss/basic_worker.hpp:62-76 | after a failed conditional suspend the root slot is empty exactly if the popped continuation is the root |
| `CondSuspend.WaitSaidNo` | cmpth/include/cmpth/wss/basic_worker_task.hpp:128-189 | whatever other workers do: once the function of a wait has said no, its caller runs again on the same worker, which has the continuation popped by that wait in hand |
| `CondSuspend.FailedWaitRestores` | cmpth/include/cmpth/wss/basic_worker_task.hpp:128-189 | a failed wait, whatever other workers do between its steps: the caller runs again, the root slot is filled as before, and the popped continuation is on top of the deque, or in the root slot if it is the root |
| `CondSuspend.UndisturbedWait` | cmpth/include/cmpth/wss/basic_worker_task.hpp:128-189 | a failed wait that nobody disturbs leaves every list and pointer as before |
| `CondSuspend.FailedSwapRestores` | cmpth/include/cmpth/wss/basic_suspended_thread.hpp:141-189 | a failed swap, whatever other workers do meanwhile: the caller runs again on the same worker, its own object is empty and the other one holds the continuation it held |
| `TaskEffects.ForkRunsChild` | cmpth/include/cmpth/wss/basic_thread_funcs.hpp:24-64 | the new task runs and its parent is on top of the deque; nothing else moves |
| `TaskEffects.SpawnQueuesChild` | cmpth/include/cmpth/wss/basic_thread_funcs.hpp:85-113 | the new task is on top of the deque and the parent goes on; nothing else moves |
| `TaskEffects.NotifyQueues` | cmpth/include/cmpth/wss/basic_suspended_thread.hpp:76-88 | after a notify the object is empty and the thread it held is on top of the notifier's deque; nothing else moves |
| `TaskEffects.PopTakes` | cmpth/include/cmpth/wss/basic_worker.hpp:140-150 | a pop takes the top of the worker's deque, or its root if the deque is empty |
| `TaskEffects.ExitTakes` | cmpth/include/cmpth/wss/basic_thread_funcs.hpp:118-168 | an exiting task takes its joiner if there is one, and else what a pop takes |
| `TaskEffects.SchedulerTakes` | cmpth/include/cmpth/wss/basic_scheduler.hpp:26-53 | the scheduler loop takes the top of its own deque or the bottom of another worker's |
| `TaskEffects.SwitchesAre` | cmpth/include/cmpth/wss/basic_worker_task.hpp:24-210 | every switch runs the popped, stolen or suspended task and saves the one that ran: on the deque for yield and enter, in the root slot, in the join's callback, among those gone, or in the object that waits |
| `TaskEffects.OnJoinStores` | cmpth/include/cmpth/wss/basic_thread_funcs.hpp:171-191 | the callback of a join stores the suspended joiner in the joiner slot and releases the lock |
| `TaskEffects.FreedOnce` | cmpth/include/cmpth/wss/basic_thread_funcs.hpp:207-216 | a join that finds its task finished frees it, and nobody has freed it before |
| `TaskEffects.OperationsGoOn` | cmpth/include/cmpth/wss/basic_worker_task.hpp:24-210 | a worker in the middle of an operation always has a step to take, and each brings it closer to the end |
| `JoinExit.OnlyTheExitResumes` | cmpth/include/cmpth/wss/basic_thread_funcs.hpp:171-229 | a blocked joiner stays in one of three places until the exit switch of its child, which resumes it on that worker when the child is off its stack |
| `JoinExit.ReturnedOnce` | cmpth/include/cmpth/wss/basic_thread_funcs.hpp:193-229 | a join that returned found its task gone and never returns again |
| `JoinExit.LockReleasedOnce` | cmpth/include/cmpth/wss/basic_thread_funcs.hpp:118-229 | a lock is taken only when free and given up only by the worker that carries it, across switches too; a worker in ordinary code holds none |
| `JoinExit.FreedIsUnused` | cmpth/include/cmpth/wss/basic_thread_funcs.hpp:207-216 | when the finished-first path deallocates a task nobody runs on its stack, no list holds it and nobody holds its lock |
| `TreeIndex.TopBitIsLog` | mefdn/src/malloc.impl.h:1479-1483 | the shifting steps find the highest set bit |
| `TreeIndex.IndexInRange` | mefdn/src/malloc.impl.h:1470-1501 | a large size is at least its bin's minimum and below the next bin's, for every size |
| `TreeIndex.IndexMonotone` | mefdn/src/malloc.impl.h:1470-1486 | larger sizes never have smaller bin numbers |
| `TreeIndex.DescendBits` | mefdn/src/malloc.impl.h:1494-1496 | the top bit of the shifted size tells the half of the range, and one more shift leaves the offset in it |
| `TreeIndex.TruncationHarmlessIff` | mefdn/src/malloc.impl.h:1427-1438 | the form compiled for x86-64, which keeps 32 bits, gives the right bin if and only if the size is below 2^40 or its bits 8 to 39 are large enough |
| `TreeIndex.TruncationMisplaces` | mefdn/src/malloc.impl.h:1427-1438 | a size of 2^40 goes to bin 0 instead of 31 |
| `BinMap.MarkClear` | mefdn/src/malloc.impl.h:1509-1516 | marking and clearing change one mark |
| `BinMap.AboveMarks` | mefdn/src/malloc.impl.h:1522-1522 | left_bits of one bit keeps exactly the marks above it |
| `BinMap.LowestIsLowest` | mefdn/src/malloc.impl.h:1519-1535 | least_bit and compute_bit2idx find the lowest mark |
| `BinMap.ShiftBack` | mefdn/src/malloc.impl.h:4123-4123 | shifting a map right and left again loses only lower marks |
| `SmallBins.InsertSmallOk` | mefdn/src/malloc.impl.h:2159-2175 | insertion adds exactly the chunk and keeps the map in agreement |
| `SmallBins.UnlinkSmallOk` | mefdn/src/malloc.impl.h:2178-2219 | removal takes exactly the chunk and keeps the map in agreement |
| `SmallBins.LowTwo` | mefdn/src/malloc.impl.h:4103-4107 | the mask 3 tests the list of the size and the next one |
| `SmallBins.NextList` | mefdn/src/malloc.impl.h:4118-4129 | an all-zero map means no list from there on, else the scan finds a later list that is not empty |
| `BinTrie.InsertOk` | mefdn/src/malloc.impl.h:2237-2279 | insertion keeps the bitwise trie in order |
| `BinTrie.InsertBag` | mefdn/src/malloc.impl.h:2237-2279 | insertion adds exactly the chunk, same-size rings included |
| `BinTrie.UnlinkOk` | mefdn/src/malloc.impl.h:2305-2374 | unlinking keeps the trie in order, replacement by a leaf included |
| `BinTrie.UnlinkBag` | mefdn/src/malloc.impl.h:2305-2374 | unlinking removes exactly the chunk, from a ring or by replacement |
| `TreeBins.BinOfSize` | mefdn/src/malloc.impl.h:1470-1501 | a bin holds exactly the sizes whose computed index it is |
| `TreeBins.HeadBitsAreSizeBits` | mefdn/src/malloc.impl.h:1494-1496 | the shift for a bin drops just the bits that all its sizes share |
| `TreeBins.InsertLargeOk` | mefdn/src/malloc.impl.h:2237-2279 | all bins together gain exactly the chunk; ranges and treemap stay in agreement |
| `TreeBins.UnlinkLargeOk` | mefdn/src/malloc.impl.h:2305-2374 | all bins together lose exactly the chunk; ranges and treemap stay in agreement |
| `TreeBins.RemainderIsFit` | mefdn/src/malloc.impl.h:3025-3038 | the wrapped remainder beats the candidate exactly if the chunk fits and is smaller, so the wrap admits nothing too small |
| `TreeBins.Descend` | mefdn/src/malloc.impl.h:3030-3053 | the walk for a size ends at an exact fit or at the least subtree of larger sizes, and loses no chunk that may fit better |
| `TreeBins.SmallestOf` | mefdn/src/malloc.impl.h:3064-3071 | the walk along leftmost children finds a chunk no larger than any in the subtree or above it |
| `TreeBins.NextBin` | mefdn/src/malloc.impl.h:3054-3062 | the map scan finds the next bin that holds anything, or there is none |
| `TreeBins.BestFit` | mefdn/src/malloc.impl.h:3023-3071 | for every set of bins and every size: a smallest of all binned chunks that fit, or nothing fits |
| `TreeBins.ChooseLarge` | mefdn/src/malloc.impl.h:3023-3074 | takes a best fit, or declines only if none fits or the designated victim fits at least as well |
| `TreeBins.SmallestLarge` | mefdn/src/malloc.impl.h:3094-3111 | a smallest of all the tree bins' chunks |
| `BoundaryTags.TakeWholeOk` | mefdn/src/malloc.impl.h:1648-1650 | taking a whole free chunk keeps tiling and tags |
| `BoundaryTags.TakePartOk` | mefdn/src/malloc.impl.h:1653-1654 | splitting a free chunk keeps tiling and tags |
| `BoundaryTags.FreedOk` | mefdn/src/malloc.impl.h:876-881 | turning adjacent chunks into one free chunk keeps tiling and tags, if nothing free is next to them |
| `BoundaryTags.TilesExactly` | mefdn/src/malloc.impl.h:2012-2042 | every byte of the segment is in exactly one chunk |
| `Mspace.ChunkSizeFits` | mefdn/src/malloc.impl.h:806-825 | the padded size is aligned, at least the minimum and has room for the request and the header; it is small exactly for small requests |
| `Mspace.ChunkSizeIsLeast` | mefdn/src/malloc.impl.h:802-825 | for every request below 2^64 - 128 the chunk size is the least aligned one of at least 32 bytes with room for the request and one word |
| `Mspace.Mspace.constructor` | mefdn/src/malloc.impl.h:2485-2508 | a new mspace is valid and has nothing in use |
| `Mspace.Mspace.UnlinkChunk` | mefdn/src/malloc.impl.h:2382-2384 | exactly the chunk leaves the bins |
| `Mspace.Mspace.InsertChunk` | mefdn/src/malloc.impl.h:2378-2380 | exactly the chunk joins the bins |
| `Mspace.Mspace.ReplaceDv` | mefdn/src/malloc.impl.h:2223-2232 | the old victim is binned and the new one takes its place |
| `Mspace.Mspace.TmallocSmall` | mefdn/src/malloc.impl.h:3094-3129 | serves a small request from the tree bins and keeps the mspace valid |
| `Mspace.Mspace.TmallocLarge` | mefdn/src/malloc.impl.h:3023-3091 | serves a large request by best fit and keeps the mspace valid; declines, changing nothing, only if none fits or the victim fits at least as well |
| `Mspace.Mspace.SmallFromBins` | mefdn/src/malloc.impl.h:4098-4144 | serves a small request from an exact list, a later list or the trees; gives up with a small victim only if nothing binned fits |
| `Mspace.Mspace.SplitDv` | mefdn/src/malloc.impl.h:4155-4174 | serves a request from the victim |
| `Mspace.Mspace.SplitTop` | mefdn/src/malloc.impl.h:4176-4187 | serves a request from the top, which never becomes empty |
| `Mspace.Mspace.Malloc` | mefdn/src/malloc.impl.h:4089-4201 | keeps the mspace valid; hands out exactly one chunk that was not in use, of size at least nb and below nb + MIN_CHUNK_SIZE, and moves none; the bytes requested lie behind its two header words and reach at most over the first word of the next chunk, aligned; fails only if no free chunk is large enough, changing nothing |
| `Mspace.Mspace.Free` | mefdn/src/malloc.impl.h:4203-4302 | keeps the mspace valid; exactly that chunk is in use no more, whatever it coalesces with |
| `Mspace.Mspace.Run` | mefdn/src/malloc.impl.h:4089-4302 | any sequence of requests and releases keeps the mspace valid; each request gets one new chunk, or none when no free chunk is larger, and each release gives back its chunk; the memory obtained and not released is lent by chunks in use and no two ranges overlap; what is not released stays in place with its size |
| `Mspace.LiveApart` | mefdn/src/malloc.impl.h:2012-2042 | chunks in use are disjoint, inside the segment below the top, and aligned |
| `Mspace.LentBytesAreApart` | mefdn/src/malloc.impl.h:806-812 | the bytes that a chunk in use may lend lie in the segment and touch no head, no other chunk's lendable bytes, and neither the body of a free chunk nor the size behind it |
| `Mspace.NoAdjacentFree` | mefdn/src/malloc.impl.h:1853-1874 | no two neighbours are both free |
| `Mspace.InExactlyOnePlace` | mefdn/src/malloc.impl.h:2012-2070 | each free chunk is in exactly one of its small bin, its tree bin, the victim and the top, and nothing else is |
| `DiffCodec.WriteDiscontiguous` | mecom2/example/bench_diff.cpp:57-85 | the remote block gets the changed bytes and keeps its others; the twin becomes equal to the block |
| `DiffCodec.PackDiff` | mecom2/example/bench_diff.cpp:89-130 | the twin becomes equal to the block; the size word is the diff's size modulo 2^32, and if that does not wrap, as for blocks of at most 954437174 bytes, the buffer holds the specified records |
| `DiffCodec.UnpackDiff` | mecom2/example/bench_diff.cpp:132-152 | applies the records of any buffer whose records stay in bounds |
| `DiffCodec.RoundTrip` | mecom2/example/bench_diff.cpp:89-152 | for every receiver, unpacking the packed diff gives the same as writing the changed bytes directly |
| `DiffCodec.RecordsSize` | mecom2/example/bench_diff.cpp:249-249 | the records need at most 9 bytes for each byte of the block |
| `DiffCodec.SizeFitsIff` | mecom2/example/bench_diff.cpp:87-94 | all diffs of a block fit the 32-bit size if and only if the block has at most 954437174 bytes |
| `DiffCodec.BlockRoundTrip` | mecom2/example/bench_diff.cpp:89-152 | the round trip for every block of at most 954437174 bytes |
| `DiffCodec.CommuteIff` | mecom2/example/bench_diff.cpp:132-152 | two diffs commute if and only if they agree on the bytes both changed |
| `DiffCodec.PackedDiffsCommute` | mecom2/example/bench_diff.cpp:89-152 | packed diffs with disjoint changes can be unpacked in either order |
| `StaticLoop.Partition` | meomp/src/meomp.cpp:720-769 | for either sign of the increment, the threads' clipped ranges cover exactly the loop's iterations and no two share one (section 2.9.2 of the OpenMP 5.0 specification) |
| `StaticLoop.OneLast` | meomp/src/meomp.cpp:758-767 | exactly one thread is told it has the last iteration, and it is the one that runs it |
| `StaticLoop.CountsUp` | meomp/src/meomp.cpp:747-750 | the trip count counts the iterations up to the bound |
| `StaticLoop.StrideCounts` | meomp/src/meomp.cpp:747-768 | the stride that every thread is told is the number of the loop's iterations, for either sign |
| `StaticLoop.EvenShares` | meomp/src/meomp.cpp:752-757 | a thread runs the iterations numbered from tid * c to (tid + 1) * c, with c the trip count divided by the number of threads, rounded up |
| `OmpCommands.LoopMaster` | meomp/src/dist_worker.hpp:46-72 | the master's loop takes part in the specified collectives, for every program the same as a slave with equal barrier counts |
| `OmpCommands.LoopSlave` | meomp/src/dist_worker.hpp:99-115 | on the commands of any program, a slave's loop takes part in the master's collectives if and only if the barrier counts agree |
| `OmpCommands.SameCollectives` | meomp/src/dist_worker.hpp:46-234 | for every complete program, a slave issues the master's sequence of broadcasts and DSM barriers if and only if its first thread executes as many barriers in each region as the master thread |
| `OmpCommands.CollectivesOfProgram` | meomp/src/dist_worker.hpp:46-234 | every program broadcasts just the commands outside its regions, in order, and does two DSM barriers around each region and one for each barrier in it |
| `OmpCommands.NothingFatalSent` | meomp/src/dist_worker.hpp:46-72 | no command that is fatal on a slave is broadcast, and the exit is the last |
| `OmpBarrier.StartParallel` | meomp/src/child_worker_group.hpp:31-64 | the process's first number is its rank times the threads of a process, and its children get consecutive numbers from there, or from 1 on the master process, whose master thread keeps 0 |
| `OmpBarrier.NumbersApart` | meomp/src/dist_worker.hpp:132-143 | thread numbers are all different and below the total |
| `OmpBarrier.NumberTaken` | meomp/src/dist_worker.hpp:132-143 | every number below the total is some thread's |
| `OmpBarrier.StepKeepsInv` | meomp/src/child_worker_group.hpp:95-116 | every step keeps local and DSM arrivals in step |
| `OmpBarrier.GlobalBarrier` | meomp/src/child_worker_group.hpp:95-116 | nobody has completed a barrier that some thread of any process has not begun (section 2.17.2 of the OpenMP 5.0 specification) |
| `OmpBarrier.DsmPerRegion` | meomp/src/child_worker_group.hpp:106-111 | when a region is over, every process has done exactly as many DSM barriers as the region has barriers, all by its first thread |
| `OmpBarrier.NeverStuck` | meomp/src/child_worker_group.hpp:95-116 | if all threads execute equally many barriers, somebody can always move on until all have completed the last |
| `OmpBarrier.StepsAreBounded` | meomp/src/child_worker_group.hpp:95-116 | a thread takes at most six steps for each barrier, so, as somebody can always move on, every region ends |
| `OmpRegion.AllProcessesAgree` | meomp/src/dist_worker.hpp:46-234 | for every program and every interleaving of its regions' threads that executes equally many barriers in each, every process issues the master's sequence of broadcasts and DSM barriers |

## Left out

- Weak memory orders and fences: steps are sequentially consistent.
- Wrap-around of the deque's and the ring buffer's 64-bit counters, and signed overflow in the loop
  schedule: counters and loop bounds are unbounded integers.
- ChaseLev.Linearizes: covers operations that complete with a result; a steal that returns nothing does not
  tell an empty deque from a lost race, so its reason is stated separately.
- CircularIndex.DistinctSlots: the slot of an index is its remainder by the array size, which the bit mask equals
  for the powers of two that the array uses.
- `local_push_bottom` of the locked deque: the Chase-Lev deque forwards it to push-top, which `yield` then uses.
- Delegator shutdown (`stop_consumer`), which the source marks as unfinished.
- McsMutex.NotifierSeesSavedWaiters: the notifier is assumed to hold the mutex, as in the barrier.
- Scheduler fairness, `detach`, thread-local storage, profiling and logging.
- Reclamation after a join that had to wait: that path of `join` never deallocates the task.
- CondSuspend.FailedSwapRestores: a suspended-thread object has one waiter between its wait and its notify, and
  the function of a conditional suspend says no only if the caller has not been notified; the library asserts what
  it can see of both and leaves them to its clients.
- BinTrie.UnlinkBag: tries and rings are values, not nodes updated in place, and a node is found by its size
  bits instead of its parent link; aliasing of the links is not modelled.
- SmallBins.UnlinkSmallOk: the doubly linked lists are sequences.
- LinkedPool.Pool.Allocate: a call is one unit here; interleavings are in `ReturnPool`, and a threshold of at
  least 1 is assumed because the splice needs a buffer that is not empty.
- Mspace.Mspace.constructor: the whole segment is the top; the chunk that holds the state itself and the alignment
  of the first chunk are not modelled.
- Mspace.Mspace.Free: releasing anything but a chunk in use is a usage error and not modelled; nor are the
  address checks against corruption, footers, trimming and the release of unused segments.
- Mspace.Mspace.Malloc: `sys_alloc` fails, so the segment does not grow; `mmap`ed chunks, `realloc` and
  `memalign` with their `dispose_chunk`, statistics and locking of the mspace are not modelled.
- DiffCodec.PackDiff: requires a block below 2^32 bytes, which its 32-bit index can address; when the size
  wraps, only the size word and the twin are specified.
- DiffCodec.UnpackDiff: requires records in bounds; the source asserts only the start of each.
- DiffCodec.WriteDiscontiguous: the non-blocking writes are done at once; they are to disjoint bytes and
  waited for at the end.
- StaticLoop.Partition: the unsigned 64-bit entry point, whose last-iteration test wraps, and other schedules.
- OmpBarrier.GlobalBarrier: the local barrier and the barrier of the shared memory are taken as barriers; the
  local one is the one of `CvBarrier`.
- OmpCommands.SameCollectives: programs whose commands are nested or end inside a region, which the runtime
  does not support.
- The coherence protocol of the shared memory, epoll and socket delegation, MPI and UCX wrappers, the x86-64
  context-switch assembly and `basic_mcs_spinlock.hpp` are not part of this model.

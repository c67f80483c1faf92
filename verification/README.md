# A verified model of the composable ParallelFor scheduler

This project models the concurrent and index-arithmetic core of the repository in Dafny and proves what it
is for. `dafny verify dfyconfig.toml` checks all of it.

Concurrent code is modelled as a state machine with one program counter per thread; every step performs one
access to shared memory, and the accesses are sequentially consistent. Code that changes fields or arrays in
place is modelled as classes and methods over them. Integers are unbounded unless a line below says otherwise.

**The work-stealing deque** (`RunQueue*.dfy`, `DequeSpec.dfy`, `ManyDeque.dfy`). `DequeSpec` is the reference
object: a bounded sequence whose operations take effect in one atomic step between call and return.
`RunQueueProtocol` is the code, access by access (`PushFrontNext`, `PopFrontNext`, `PushBackNext`, `PopBackNext`,
`PopBackHalfNext`), with packed indices of any machine word whose size 2k divides. `RunQueueSimulation` relates the
array to an unbounded range of claimed elements, `RunQueueOwner` and `RunQueueRemote` prove it kept by each step, and
`RunQueueRuns` concludes that every interleaving of the owner with the holder of the mutex is a run of the atomic
deque. `RunQueueCallers` adds what happens outside the mutex: any number of callers that test for emptiness, return
early or wait for the mutex; `RunQueueCallersRuns` proves the same of it, against `ManyDeque`. `RunQueueRange` restates
the intent about the array alone, `RunQueueSnapshot` is about `Size` and `Empty`, `RunQueueOvershoot` and
`RunQueueEmpty` say exactly when two comments of the source hold (`RunQueueReach` builds their runs),
`RunQueueProgress` is why every operation returns, and `RunQueue` is the deque as a class with 32-bit indices, run by
one thread at a time.

**The ticket queue** (`TicketQueue.dfy`, `TicketRuns.dfy`, `TicketProgress.dfy`, `MpmcQueue.dfy`): any number of
threads mixing blocking and try operations, what they answer and when, and the try operations as a class.

**ParallelFor** (`Distribution.dfy`, `Halving.dfy`, `PartitionerTask.dfy`, `TaskTree*.dfy`): how a task shares its
range over threads and halves it; the body of a task as a class; and a whole call as a state machine, with every
shared task in two queues behind a `ProxyTask` and the reference-counted node tree that the caller waits on
(`TaskTreeRuns` for what the join means, `TaskTreeProgress` for why it is reached, `TaskTreePlan` and `TaskTreeHints`
for which tasks sharing makes in a run, `TaskTreeLeaves` for which ranges balancing executes in a run).

**The rest**: the steal walk (`StealWalk.dfy`), the in-place prefix sum (`Scan.dfy`), compressed sparse rows
(`Csr.dfy`), a RapidStart fork-join round (`RapidStart.dfy`, `RapidStartProgress.dfy`) and the intrusive pointer (`IntrusivePtr.dfy`).
`Modular.dfy` holds the arithmetic that the others share.

## Where the code and its documentation disagree

- include/eigen/run_queue.h:230-233 says that the computed size, before the clamp, can be up to kSize + 1. That is so
  exactly in runs that do not call both `PushFront` and `PopBackHalf` (`RunQueueOvershoot.CommentExact`). With both,
  every capacity reaches kSize + (kSize + 1) / 2 (`LargestReached`) and none more (`LargestDistance`): `PopBackHalf`
  empties its slots before it stores its index, and the owner can fill them meanwhile. The clamp itself is right in
  all cases, because 2 * kSize is never reached. The thread pool does not call `PopBackHalf`.
- include/eigen/run_queue.h:27-29 says that the occupied region is contiguous, with no stray occupied elements. The
  occupied slots are one stretch round the array in every reachable state but those in which `PopBackHalf` has
  emptied a slot and not yet the ones below it, the slot above the emptied ones is occupied and the one below the back
  end is not (`RunQueueRange.ContiguousExact`, both directions). Every capacity from 4 on has such a state with three
  elements (`RunQueueOvershoot.GapReached`). The elements claimed by pushes and not yet by pops are always contiguous
  (`RunQueueRange.ClaimedRange`).
- include/eigen/run_queue.h:199-200 promises that a queue that is not empty is never called empty. As long as the
  counter does not wrap within a round, that is so exactly in runs that do not call both `PopFront` and `PushBack` (`RunQueueEmpty.EmptyExact`), which move the indices down
  without counting: with both, a queue that holds a ready element at every moment of the call can be called empty
  (`EmptyWrong`). The thread pool does not call `PushBack`.

## Model

| member | source | states |
|---|---|---|
| RunQueueCallersRuns.CallersLinearizable | include/eigen/run_queue.h:21-37 | every interleaving of the owner with any number of callers that contend for the mutex, tests of Empty and early returns included, is, with the same calls and returned values, a run of the atomic bounded deque: each operation takes effect once, at its own end, between its call and its return; in runs that do not call both PopFront and PushBack |
| RunQueueCallersRuns.EarlyReturnTakesEffect | include/eigen/run_queue.h:105-108 | when a test of Empty that will succeed loads the back index, every element of the queue is still being put in by another thread |
| RunQueueCallers.MutexHolds | include/eigen/run_queue.h:26-28 | exactly one caller is inside the protocol while the remote is not idle, and none otherwise |
| RunQueueRuns.Linearizable | include/eigen/run_queue.h:21-37 | from the mutex on, in every run: the owner with the holder of the mutex is a run of the atomic deque of one remote |
| RunQueueRuns.Simulates | include/eigen/run_queue.h:58-154 | from the mutex on, one access of any operation keeps the relation to the atomic deque and is a step of it or none |
| RunQueueOwner.OwnerInternal | include/eigen/run_queue.h:58-85 | every access of PushFront and PopFront, given any state of the remote, is a step of the atomic deque |
| RunQueueRemote.RemoteInternal | include/eigen/run_queue.h:89-154 | from the mutex on, every access of PushBack, PopBack and PopBackHalf, given any state of the owner, is a step of the atomic deque |
| RunQueueRemote.HalfClaims | include/eigen/run_queue.h:134-150 | the one successful CAS of PopBackHalf claims all elements from the middle to the back at once, in the order in which they are appended |
| RunQueueRuns.HalfAssertionHolds | include/eigen/run_queue.h:142-146 | the assertion in PopBackHalf that each further element is ready holds in every run |
| RunQueueRuns.RunBalances | include/eigen/run_queue.h:25-37 | at every moment accepted pushes and those in flight balance delivered pops, those in flight and the contents |
| RunQueueRuns.NothingLostOrDuplicated | include/eigen/run_queue.h:25-37 | when no operation is under way, the elements pushed with success are, as a multiset, those popped plus those in ready slots from the back index to the front index |
| RunQueueProgress.OwnerBounded | include/eigen/run_queue.h:58-85 | one call of PushFront or PopFront makes at most six steps in any run, whatever the other threads do |
| RunQueueProgress.BackBounded | include/eigen/run_queue.h:89-119 | from the mutex on, one call of PushBack or PopBack makes at most six steps in any run |
| RunQueueProgress.RemoteBounded | include/eigen/run_queue.h:123-154 | one call of PopBackHalf makes a number of steps linear in the capacity, and two more for every change of the front index while it measures |
| RunQueueProgress.RemoteStepLowers | include/eigen/run_queue.h:89-154 | every step of the holder of the mutex brings its return closer, unless the front index has changed since it was loaded for the measurement |
| RunQueueProgress.TestBounded | include/eigen/run_queue.h:198-222 | a test of Empty makes at most three steps, and two more for every change of the front index meanwhile |
| RunQueueProgress.TestAnswers | include/eigen/run_queue.h:204-221 | a round in which the front index did not change answers: early return exactly when the positions are equal |
| RunQueueProgress.CallerStepPossible | include/eigen/run_queue.h:105-119 | a caller inside an operation can always go on, except at the mutex while another is inside |
| RunQueueRange.ClaimedRange | include/eigen/run_queue.h:26-30 | in every reachable state the claimed elements are one stretch of at most k slots, ready but for one being stored at either end; outside it exactly the slots of elements being taken out are occupied |
| RunQueueRange.ContiguousExact | include/eigen/run_queue.h:26-30 | in every reachable state the occupied slots are one stretch round the array if and only if PopBackHalf has not left a gap between occupied slots |
| RunQueueRange.ContiguousWithoutHalf | include/eigen/run_queue.h:26-30 | in runs without PopBackHalf the occupied slots are always one stretch |
| RunQueueOvershoot.GapReached | include/eigen/run_queue.h:134-150 | every capacity from 4 on has a reachable state whose occupied slots are not one stretch |
| RunQueueRange.NeverSameSlot | include/eigen/run_queue.h:31-37 | owner and remote never hold the same slot |
| RunQueueRange.BusyIsHeld | include/eigen/run_queue.h:33-37 | every busy slot is held by the owner or the remote |
| RunQueueSnapshot.DistanceBounded | include/eigen/run_queue.h:224-237 | in every reachable state the index distance is at most k + 1, or k plus the elements PopBackHalf has claimed without storing its index, and always below 2k |
| RunQueueOvershoot.CommentExact | include/eigen/run_queue.h:230-235 | the distance stays within k + 1 in all runs that call given kinds of operations if and only if PushFront and PopBackHalf are not both among them |
| RunQueueOvershoot.LargestReached | include/eigen/run_queue.h:230-235 | every capacity reaches the distance k + (k + 1) / 2 by calling PushFront and PopBackHalf |
| RunQueueOvershoot.LargestDistance | include/eigen/run_queue.h:224-237 | no run exceeds k + (k + 1) / 2 |
| RunQueueSnapshot.CounterGrows | include/eigen/run_queue.h:184-190 | between two moments the counter in the front index moves by one or two per stored push and by nothing else, modulo the counter values that fit a word |
| RunQueueSnapshot.SnapshotSound | include/eigen/run_queue.h:198-210 | two equal loads of the front index with the back index loaded between them at an equal position, in a run that does not call both PopFront and PushBack: no element was ready at that load |
| RunQueueSnapshot.EmptyIsNeverWrong | include/eigen/run_queue.h:198-222 | in such runs Empty, with its retry loop, returns true only if no element was ready when it loaded the back index |
| RunQueueEmpty.EmptyExact | include/eigen/run_queue.h:198-222 | Empty is right in this sense in all runs that call given kinds of operations if and only if PopFront and PushBack are not both among them |
| RunQueueEmpty.EmptyWrong | include/eigen/run_queue.h:198-222 | with both, for every capacity, a call of Empty that returns true although an element was ready at each of its moments |
| RunQueueClass.SizeFitsWord | include/eigen/run_queue.h:46-49 | every capacity the constructor accepts divides the 32-bit word as the index arithmetic needs |
| RunQueueClass.HoldsSize | include/eigen/run_queue.h:224-237 | at rest the computed size is the number of elements |
| RunQueueClass.RunQueue.constructor | include/eigen/run_queue.h:45-52 | the queue starts empty |
| RunQueueClass.RunQueue.PushFront | include/eigen/run_queue.h:58-69 | appends at the front, and fails exactly when k elements are there |
| RunQueueClass.RunQueue.PopFront | include/eigen/run_queue.h:73-85 | removes and returns the front element, or nothing exactly when empty |
| RunQueueClass.RunQueue.PushBack | include/eigen/run_queue.h:89-102 | prepends at the back, and fails exactly when k elements are there |
| RunQueueClass.RunQueue.PopBack | include/eigen/run_queue.h:105-119 | removes and returns the back element, or nothing exactly when empty |
| RunQueueClass.RunQueue.PopBackHalf | include/eigen/run_queue.h:123-154 | removes exactly half of the elements, rounded up, from the back, and returns them from the middle to the back |
| RunQueueClass.RunQueue.TakeDown | include/eigen/run_queue.h:132-150 | the loop empties exactly the slots of the back half and collects their elements in that order |
| RunQueueClass.RunQueue.Size | include/eigen/run_queue.h:158-158 | the number of elements |
| RunQueueClass.RunQueue.Empty | include/eigen/run_queue.h:162-162 | true exactly when there is no element |
| TicketQueue.StepKeeps | include/eigen/mpmc_queue.h:166-254 | every access of emplace, try_emplace, pop and try_pop by any thread keeps the turn invariant of every ticket |
| TicketRuns.TicketsInOrder | include/eigen/mpmc_queue.h:166-197 | tickets are handed out in order, one per operation |
| TicketRuns.PopDeliversItsTicket | include/eigen/mpmc_queue.h:225-254 | the pop with ticket t delivers the value of the push that took ticket t earlier in the run |
| TicketRuns.DeliveredOnce | include/eigen/mpmc_queue.h:225-254 | no ticket is delivered twice |
| TicketRuns.SlotExclusive | include/eigen/mpmc_queue.h:169-174 | no two threads are ever constructing, moving or destroying in the same slot |
| TicketRuns.OddTurnConstructed | include/eigen/mpmc_queue.h:85-90 | with nobody at work in a slot, its turn is odd exactly when an element is constructed there |
| TicketRuns.WaitersCanGo | include/eigen/mpmc_queue.h:169-174 | with nobody inside a slot, which of the least waiting push and the least waiting pop can go on |
| TicketRuns.DeadlockFree | include/eigen/mpmc_queue.h:225-233 | when a push and a pop wait and nobody is inside a slot, the condition of some waiting thread holds |
| TicketProgress.WaitEnds | include/eigen/mpmc_queue.h:171-172 | a step of a waiting thread ends the wait exactly when its condition holds, and changes nothing otherwise |
| TicketProgress.SomeWaiterGoes | include/eigen/mpmc_queue.h:225-233 | when a push and a pop wait and nobody is inside a slot, some waiting thread goes on and has at most three steps left |
| TicketRuns.TryOnlyBounded | include/eigen/mpmc_queue.h:177-197 | with try operations only, tail <= head <= tail + capacity in every reachable state |
| TicketRuns.FailedPushWasFull | include/eigen/mpmc_queue.h:189-195 | a try_emplace that returns false met, during that call, a moment at which head was h and the element with ticket h - capacity was not fully removed |
| TicketRuns.FailedPopWasEmpty | include/eigen/mpmc_queue.h:246-252 | a try_pop that returns false met, during that call, a moment at which tail was t and the push with ticket t was not published |
| TicketProgress.TryPushAnswers | include/eigen/mpmc_queue.h:180-196 | try_emplace looks at the turn and, if the index is still the one it loaded at its next step, answers there: false exactly when the turn was wrong, otherwise it holds the ticket |
| TicketProgress.TryPopAnswers | include/eigen/mpmc_queue.h:237-253 | the same of try_pop |
| TicketProgress.OperationBounded | include/eigen/mpmc_queue.h:166-254 | an operation makes at most six steps of its own, spins aside, and two more for every ticket that another thread takes meanwhile |
| TicketProgress.OwnStepLowers | include/eigen/mpmc_queue.h:166-254 | every own step that is no spin brings the return closer |
| TicketProgress.StepPossible | include/eigen/mpmc_queue.h:166-254 | every thread inside an operation has a step, which is a spin exactly when it waits for its turn |
| MpmcQueueClass.Create | include/eigen/mpmc_queue.h:122-139 | an empty queue, or none exactly for a capacity below one |
| MpmcQueueClass.MpmcQueue.TryEmplace | include/eigen/mpmc_queue.h:177-197 | run by one thread, appends, and fails exactly when the queue holds its capacity |
| MpmcQueueClass.MpmcQueue.TryPop | include/eigen/mpmc_queue.h:235-254 | run by one thread, removes the oldest element, and fails exactly when the queue is empty |
| Distribution.SharedTiles | include/timespan_partitioner.h:125-176 | the kept prefix and the children tile the task's range, no child is empty, and the children's threads tile all threads but the task's own |
| Distribution.KeepsShare | include/timespan_partitioner.h:127-132 | a task that shares keeps n / T of its n iterations for T threads, rounded up |
| Distribution.SharesEvenly | include/timespan_partitioner.h:134-155 | two children differ by at most one iteration and one thread, and which of them has the odd one |
| Distribution.SharesWhen | include/timespan_partitioner.h:125-136 | when nothing is shared, when with one child and when with two |
| Distribution.PlanTiles | include/timespan_partitioner.h:125-168 | all tasks of the recursive sharing together tile the call's range, whatever the stack tests say |
| Distribution.PlanThreads | include/timespan_partitioner.h:159-165 | the hints of all tasks of a call ascend strictly, so they are distinct |
| Distribution.DepthLogarithmic | include/timespan_partitioner.h:125-168 | work is handed on at most floor(log2 T) times |
| Distribution.AtMostOneEach | include/timespan_partitioner.h:125-168 | grain 1, no stack cutoff, no more iterations than threads: no task is given more than one |
| Distribution.ExactlyOneEach | include/tests/parallel_for_tests.cpp:110-122 | grain 1, no stack cutoff, as many iterations as threads: thread k is given exactly iteration k |
| Distribution.TilesPartition | include/timespan_partitioner.h:125-176 | ranges that tile an interval hold each of its numbers exactly once |
| Halving.LeafSizes | include/timespan_partitioner.h:200-219 | balancing by halves executes ranges that tile the original, each between floor((g + 1) / 2) and g when the original is larger than the grain g |
| Halving.MeasuredLeaves | include/timespan_partitioner.h:186-215 | the leaves of what is left after a span of m iterations |
| PartitionerTask.SplitOver | include/timespan_partitioner.h:133-173 | the loop hands out the specified children, and all its assertions hold |
| PartitionerTask.Task.DistributeWork | include/timespan_partitioner.h:125-176 | shares the specified pieces and shrinks the task to the kept prefix, whose sizes KeepsShare and SharesEvenly give |
| PartitionerTask.Task.Balance | include/timespan_partitioner.h:200-215 | terminates; what is left and what is spawned tile the range, and their halvings are those of the range |
| PartitionerTask.Task.ExecuteForSpan | include/timespan_partitioner.h:186-198 | executes a prefix of the range in order and leaves as grain the number of iterations executed, or one more if the range was exhausted |
| PartitionerTask.Task.Drain | include/timespan_partitioner.h:217-219 | executes the rest in order |
| PartitionerTask.Task.Run | include/timespan_partitioner.h:178-222 | for every policy: what is shared, with which grain what is left after the span is balanced, that the range kept back and the leaves of the spawned halves are the leaves of what was left, and that executed prefix, halves and shared pieces tile the range |
| TaskTreeSteps.NextKeeps | include/timespan_partitioner.h:178-222 | every step of every worker keeps the partition of the iterations and the reference counts |
| TaskTreeSteps.NothingBlocks | include/timespan_partitioner.h:178-222 | the side conditions of the steps never block one |
| TaskTreeSteps.SpawnKeeps | include/timespan_partitioner.h:157-165 | a spawned task takes over part of what its parent owned, under a new node that its parent's node counts |
| TaskTreeSteps.ReleaseKeeps | include/timespan_partitioner.h:220-220 | a task that resets its node gives up exactly its own reference |
| TaskTreeSteps.FreeKeeps | include/intrusive_ptr.h:147-152 | freeing a node whose count is zero releases its parent, which is still there |
| TaskTreeRuns.JoinMeansDone | include/timespan_partitioner.h:303-334 | when the caller's loop ends, every iteration of [from, to) has been executed exactly once and nothing else, every task has reset its node, and every other node has been freed exactly once |
| TaskTreeRuns.DoneMeansJoin | include/timespan_partitioner.h:331-333 | once all tasks have reset their nodes and all other nodes are freed, the caller's loop ends |
| TaskTreeRuns.JoinIsFinal | include/timespan_partitioner.h:331-334 | no later step executes an iteration, spawns a task or touches a node |
| TaskTreeRuns.JoinStays | include/timespan_partitioner.h:331-334 | the same over the rest of the run |
| TaskTreeProgress.SomeStepPossible | include/timespan_partitioner.h:331-333 | until the caller's loop can end, some worker has a step to make |
| TaskTreeProgress.StepShrinks | include/timespan_partitioner.h:178-222 | every step, whatever the stack test and the clock say, lowers the number of steps a call can still make |
| TaskTreeProgress.RunsEnd | include/timespan_partitioner.h:303-334 | no schedule keeps a call of n iterations going for more than 40 n + 10 steps |
| TaskTreeProgress.MaximalRunJoins | include/timespan_partitioner.h:303-334 | every run that cannot go on has joined |
| TaskTreePlan.PlanRealized | include/timespan_partitioner.h:125-184 | at the join of any run the root and the shared tasks are exactly those of the plan for the outcomes of the stack tests, with hints and kept ranges |
| TaskTreeHints.SomeFull | include/timespan_partitioner.h:121-184 | the outcomes of the stack tests of any run are a function of the threads of the sharing tasks, so that PlanRealized is about all runs |
| TaskTreeHints.TasksApart | include/timespan_partitioner.h:159-165 | no two shared tasks of a run have the same hint |
| TaskTreeHints.InitialDistribution | include/tests/parallel_for_tests.cpp:110-122 | in a run with grain 1 and no stack cutoff: with as many iterations as threads the task for thread k is given iteration k, with fewer no task is given more than one |
| TaskTreePlan.AlwaysHistoric | include/timespan_partitioner.h:182-198 | in every state: the policies of shared tasks and halves, and the grain with which a task balances, which is the number of iterations of its time span if it has one |
| TaskTreeLeaves.BalancedRight | include/timespan_partitioner.h:200-219 | at the join of a run without stack cutoff, what the root or a shared task had left after its time span was executed, by it and its halves, in exactly the leaves of the halving |
| TaskTreeLeaves.MeasuredRight | include/timespan_partitioner.h:186-215 | with a time span of m iterations and more than m left, every such leaf has between (m + 1) / 2 and m iterations |
| TaskTreeLeaves.StaticStealing | include/timespan_partitioner.h:200-219 | in static stealing the ranges finally executed are the leaves of the call with its grain |
| TaskTreeRuns.NoUseAfterDelete | include/eigen/nonblocking_thread_pool.h:41-75 | no step works on a deleted task object, on a freed node or on the parent of one |
| TaskTreeRuns.ProxyRunsOnce | include/eigen/nonblocking_thread_pool.h:60-75 | a ProxyTask runs its function at most once, has run it after any invocation has begun, and is deleted, once, exactly when both invocations have happened and the function has returned |
| TaskTreeRuns.AlwaysPartitioned | include/timespan_partitioner.h:178-222 | at every moment each iteration has been executed once or belongs to exactly one task |
| StealWalk.ComputeCoprimes | include/eigen/nonblocking_thread_pool.h:319-333 | the list holds exactly the numbers from 1 to n coprime to n, in ascending order |
| StealWalk.CoprimeCancels | include/eigen/nonblocking_thread_pool.h:131-137 | a multiple of a width coprime to n is a multiple of n only if its factor is |
| StealWalk.NextVictim | include/eigen/nonblocking_thread_pool.h:526-529 | adding the width and subtracting the size once is the walk modulo the size |
| StealWalk.WalkInjective | include/eigen/nonblocking_thread_pool.h:131-137 | a walk of coprime width meets no worker twice |
| StealWalk.FullWalkCovers | include/eigen/nonblocking_thread_pool.h:131-137 | a full walk meets every worker |
| StealWalk.ReducedBelow | include/eigen/nonblocking_thread_pool.h:512-518 | the multiplicative reduction of a random word stays in bounds |
| StealWalk.Draw | include/eigen/nonblocking_thread_pool.h:511-518 | which victim and which width the random word selects: those of equal parts of the words; the width is coprime to the size |
| StealWalk.Steal | include/eigen/nonblocking_thread_pool.h:508-532 | probes distinct workers of [start, limit), from the victim and by the width that the random word selects, until one gives a task, and all of them before it gives up |
| Scan.UpSweepLevel | include/benchmarks/scan.h:22-31 | any order of the iterations of a level gives the same array, each element combined within its own block |
| Scan.DownSweepLevel | include/benchmarks/scan.h:34-45 | any order of the iterations of a level gives the same array; the first level changes nothing |
| Scan.UpLevelKeeps | include/benchmarks/scan.h:22-31 | after level d the last element of every run of 2^(d+1) holds the run's sum |
| Scan.Turn | include/benchmarks/scan.h:32-32 | clearing the last element starts the way down |
| Scan.DownLevelKeeps | include/benchmarks/scan.h:34-45 | a level turns prefix sums at runs of 2^(d+1) into prefix sums at runs of 2^d |
| Scan.Scan | include/benchmarks/scan.h:19-46 | every element becomes the sum of the original elements before it |
| RapidStart.Run | include/rapid_start.h:27-37 | a slot's part is one more than the number of set bits below it, the parts one more than all set bits |
| RapidStart.PartsDistinct | include/rapid_start.h:27-37 | different slots of a round have different parts |
| RapidStart.PartHasSlot | include/rapid_start.h:27-37 | every part has a slot |
| RapidStart.PartsTile | include/rapid_start.h:42-51 | the parts tile [start, end) in order, and the first (end - start) % parts of them are one longer than the others |
| RapidStart.CoveredOnce | include/rapid_start.h:27-51 | every iteration is covered by exactly one slot of the round |
| RapidStart.CoversInside | include/rapid_start.h:42-51 | no slot covers anything outside the range |
| RapidStart.OwnBitIgnored | include/rapid_start.h:86-92 | the caller, without bit 0 in its mask, and the workers, with it, agree on the split |
| RapidStart.NextKeeps | include/rapid_start.h:78-118 | every step of the caller and the workers keeps the round's invariant |
| RapidStart.RoundComplete | include/rapid_start.h:78-94 | when spread_work returns, the caller and every worker have run their part of this call exactly once, nothing else was run, and no worker is inside the function |
| RapidStart.IterationsOnce | include/rapid_start.h:78-94 | when spread_work returns, exactly one of the recorded executions covers each iteration |
| RapidStartProgress.SomeStepPossible | include/rapid_start.h:78-118 | until spread_work returns some thread has a step that is no spin |
| RapidStartProgress.StepLowers | include/rapid_start.h:78-118 | every such step brings the return closer |
| RapidStartProgress.RoundEnds | include/rapid_start.h:78-94 | one call makes no more than a constant number of steps, spins aside |
| IntrusivePointer.HoldersSet | include/intrusive_ptr.h:64-64 | how retargeting one pointer changes the number of holders of every object |
| IntrusivePointer.IntrusivePtr.FromRaw | include/intrusive_ptr.h:13-17 | counts equal holders again; only the target's changes |
| IntrusivePointer.IntrusivePtr.Copy | include/intrusive_ptr.h:19-23 | counts equal holders again; only the target's changes |
| IntrusivePointer.IntrusivePtr.Move | include/intrusive_ptr.h:25-25 | the source is emptied, no count changes |
| IntrusivePointer.IntrusivePtr.Destroy | include/intrusive_ptr.h:27-31 | counts equal holders without this pointer; its object is deleted exactly when it was the last |
| IntrusivePointer.IntrusivePtr.Swap | include/intrusive_ptr.h:64-64 | targets exchanged, no count changes |
| IntrusivePointer.IntrusivePtr.Assign | include/intrusive_ptr.h:33-38 | also for self-assignment: the new target is held, the old one released, and deleted exactly when this was its last holder |
| IntrusivePointer.IntrusivePtr.AssignRaw | include/intrusive_ptr.h:40-45 | the same from a raw pointer |
| IntrusivePointer.IntrusivePtr.MoveAssign | include/intrusive_ptr.h:47-52 | the same by moving; the source is emptied unless it is the target of the assignment |
| IntrusivePointer.IntrusivePtr.Reset | include/intrusive_ptr.h:54-54 | the target is released |
| Csr.MultiplyRow | include/benchmarks/spmv.h:40-48 | the dense product with the row that the stored elements denote |
| Csr.SparseDotIsDot | include/benchmarks/spmv.h:43-46 | summing over stored elements is the dense product, repeated columns included |
| Csr.MultiplyMatrix | include/benchmarks/spmv.h:50-58 | in any order of the rows, every row's product and nothing else is written |
| Csr.MultiplyDense | include/benchmarks/spmv.h:60-73 | in any order of the rows, every row's dense product and nothing else is written |
| Csr.DenseToSparse | include/benchmarks/spmv.h:126-141 | a valid compressed matrix whose rows denote the dense rows, without stored zeros and with increasing columns |
| Csr.ProductsAgree | include/benchmarks/spmv.h:40-48 | the product over the converted matrix equals the dense product for every row |
| Csr.CompressedFormUnique | include/benchmarks/spmv.h:126-141 | only one compressed form satisfies what DenseToSparse ensures |
| Csr.Assemble | include/benchmarks/spmv.h:222-239 | from ordered positions, a nondecreasing row index of n + 1 entries whose slice for row i lists exactly that row's columns in order |
| Csr.RowIsStretch | include/benchmarks/spmv.h:227-237 | in row order, a row's columns are the stretch between the counts of positions in earlier rows |

## Left out

- Weak memory orders: all accesses are sequentially consistent; acquire, release and relaxed are not told apart.
- Wraparound of the 64-bit tickets and reference counts: these are unbounded.
- RunQueueSnapshot.SnapshotSound: assumes that the counter in the front index does not wrap between the two loads (`2 * Pushes < Counters`), since a wrapped counter defeats the scheme; RunQueueSnapshot.EmptyIsNeverWrong, RunQueueEmpty.EmptyExact and RunQueueCallersRuns.CallersLinearizable (`NoWrap`) assume it of each round of Empty.
- RunQueueCallersRuns.CallersLinearizable: not for runs that call both PopFront and PushBack, in which an early return can be wrong (RunQueueEmpty.EmptyWrong); from the mutex on RunQueueRuns.Linearizable covers those runs too.
- RunQueueRuns.Simulates, RunQueueRuns.Linearizable, RunQueueRemote.RemoteInternal: begin at the mutex; the test of Empty before it is in RunQueueCallers.
- Masks are written as remainders, which they are for a capacity that is a power of two.
- RunQueue `Flush` and destructor.
- MpmcQueueClass.MpmcQueue.TryEmplace: the blocking operations are in the state machine only, because run by one thread they would spin.
- Allocation and alignment of the ticket queue.
- TaskTreeRuns.JoinMeansDone: the call of the user's function is one step, and a nested ParallelFor inside it is not modelled; a nested call is a call of its own with sharing disabled.
- In TaskTree both queue entries of a shared task can be executed as soon as it is spawned; in the code the second is pushed after the first. Where a queue is full the code executes the task at once, which the model covers as an immediate execution of that entry.
- The thread range of a half spawned by balancing, which the code leaves at its default, is a placeholder: such a task never shares.
- `Now()` and the stack test are nondeterministic; Distribution.AtMostOneEach, Distribution.ExactlyOneEach and TaskTreeHints.InitialDistribution fix the stack tests of sharing to false, TaskTreeLeaves.BalancedRight and TaskTreeLeaves.StaticStealing those of balancing.
- Machine integers of the partitioner, the scan and the matrices: unbounded, so overflow of sizes is not modelled. `to < from` is not modelled.
- Load balance of DistributeWork beyond one iteration per thread: it is not proportional.
- `ParallelDo` and `WrapAsTask`, which use the same join over a single child.
- Idle workers looking for work make no step in TaskTree; that they keep doing so is the fairness under which TaskTreeProgress.MaximalRunJoins gives the join. Cancellation, `runnext`, `NonEmptyQueueIndex`, partition packing, and which queue a task is put in.
- StealWalk.Steal: the answers of the probed queues and the random word are parameters.
- RapidStart: a fixed set of workers that have registered and read the empty mask before the first call, and mode 2 throughout; registering during a round, mode changes and the leaving path are not modelled, nor is `end < start`. The epoch is unbounded.
- Deleting an object through the intrusive pointer does not run that object's own destructor in `IntrusivePtr.dfy`; the chain of releases up the node tree is in `TaskTree`.
- Drawing random matrices, sorting the positions (they are a parameter that is already in order), floating-point rounding, the dense by dense product, `DensePmvSerial` and `TransposeMatrix`.
- The OpenMP, TBB, Taskflow and HPX branches of ParallelFor, tracing, pinning and thread creation.

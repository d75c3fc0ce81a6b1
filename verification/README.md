# Verified model of a C++20 concurrency library

This project models the lock-free and single-threaded protocols of the library and proves what they
guarantee in every run, and, where the code does not keep its promise, in exactly which runs it does. Most of
the code modelled consists of atomic operations that any number of threads interleave. Such a component is
treated in the same way throughout:

* a machine (`MsQueue`, `TreiberStack`, `SpinLock`, `Strand`, `RingQueue`, `Futures`, `FuturesAll`,
  `ThreadPool`, `PoolLinks`, `FiberMutex`): the shared words, one program counter with its local variables for
  each thread, and one step for each atomic load, store, compare-exchange or fetch operation. A schedule is an
  arbitrary sequence of choices; it decides who moves, which free address an allocation returns, and when
  a weak compare-exchange fails for no reason;
* an invariant that every step keeps, and theorems about all schedules (`...Invariant`, `...Steps`,
  `...Theorems`, `...Progress`, `...Reclamation`, `...Fairness`, `...Places`, `...Search`, `...Hints`), with complete runs where something breaks
  (`...Breaks`, `...Loss`, `RingQueueGrab`);
* an object (`...Object`, or a class in the same file) with the fields of the C++ class and its nodes, guards,
  tasks, cells or slots on the heap, whose methods are those atomic operations on memory. Each is proved to be
  the machine's step, and says besides what it does to memory and to the abstract contents. Methods that only
  load a word, call or return say no more than the step and have no row below.

`Histories` defines linearizability: the observed calls and returns can be completed with one instant of
effect for each operation, between its call and its return, so that the effects in order are a legal run of
the sequential object. The machines record these instants; the theorems hold for the recorded histories of
all schedules. Bookkeeping fields (histories, logs, abstract contents, overflow tallies) decide nothing: a step
looks at one only to raise the flag `fault` when what it is about to do is not what the code takes for granted,
and the theorems show that no run raises it.

`PoolLinks` joins three models: the pool with its ring operations in one step (`ThreadPool`), the steps of
those operations (`RingQueue`), and the `next` link inside every task, which `Grab` writes while it copies.

`ManualExecutor`, `IntrusiveQueue`, `IntrusiveList`, `ChannelObject`, `ThreadPoolQueue` and `FiberMutexObject`
model code that runs on one thread or under a lock, as classes over arrays and linked nodes. `Channel` is the
channel on values, one step for each critical section and each return of a receive, with the list of waiting consumers as it
is coded over awaiters that come to lie in memory and leave it.

Atomic operations are taken to be sequentially consistent. In lockfree/queue.hpp that is what all
operations but those of the constructor and destructor ask for (section 31.4 of ISO/IEC 14882:2020);
elsewhere it is an assumption.

## Where the code does not do what it is for

* Michael-Scott queue, lockfree/queue.hpp: the 16-bit count in `head_` grows by one with every `TryPop` on an
  empty queue. The 65535th makes it overflow, and the node it points to is never freed
  (`MsQueueReclamation.PollingLeaks`, `LeakedGarbage`). A node is lost if and only if its counter overflowed
  (`QuiescentHeap`, `OverflowedForever`); overflow never frees a node early (`OnlyUnwrappedDie`).
* The stack, lockfree/stack.hpp, loses nodes in the same way, although only calls that fail each other's exchange
  can overflow its count (`TreiberStackReclamation.LeakedGarbage`); again exactly the nodes whose counter
  overflowed (`TreiberStackTheorems.QuiescentHeap`, `TreiberStackReclamation.OverflowedForever`).
* The queue is called lock-free but two consumers can starve each other for ever; one that runs alone
  finishes within 25 steps (`MsQueueProgress.NotLockFree`, `ObstructionFree`). A failed exchange always means
  that another thread acquired or swung the word (`LostToAnother`).
* Thread pool, lockfree/ring_queue.hpp:69-77 and executors/thread_pool/with_waitidle/thread_pool.cpp:131-139,
  243-269: `Grab` puts what it copies into an intrusive queue, and so writes the items' `next` links, before its
  exchange has won them. Two thieves, or a thief and an overflowing owner, can cut a list that one of them has won
  already; a task behind the cut is in no ring, queue, slot or hand and never runs (`PoolLinksLoss.TaskLost`).
  `PoolLinksTheorems.ListsHold` says exactly in which runs all lists hold together, `PoolLinksLists.StepTears` which
  steps destroy one, `PoolLinksOverlap.NoOverlapNoTear` that none does without a `Grab` that was outrun or that is
  not alone on its ring. In the runs in which no list is read wrong nothing is lost or doubled
  (`PoolLinksTheorems.NothingLost`), and what `ThreadPoolTheorems`, `ThreadPoolFairness`, `ThreadPoolSearch` and `ThreadPoolHints` say of the pool holds
  of all runs of it with lists that nobody else writes to (`PoolLinksTheorems.IsPoolRun`).
* `RingQueue::Grab` may return fewer items than there are, in a way no atomic bulk removal could explain
  (`RingQueueGrab.GrabIsNotGreedy`); `RingQueueTheorems.GrabTakesAll` says exactly when it takes all it may.
* Fiber mutex, fibers/sync/mutex.hpp with detail/spinlock.hpp:26-36 and fibers/fiber.hpp:80-88: the worker that
  suspended a fiber releases the fiber's guard first and sets `released_` afterwards, and then discards its task. A fiber
  resumed in between comes back from `Lock` and releases its guard again. If no guard had queued behind it, that
  waits for ever and nobody gets the mutex any more (`FiberMutexBreaks.ReleasesTwice`,
  `FiberMutexTheorems.SecondReleaseSticks`); otherwise it grants the lock to a guard that may be gone
  (`FiberMutexBreaks.GrantsAgain`). Of two workers that are late with the same fiber the second deletes it
  (`FiberMutexBreaks.DeletesSuspended`). `StepBreaks` and `BreaksExactly` say
  exactly when that happens, and `ServesExactly` that the mutex does what it is for in all other runs.
* `RecoverCallback::Invoke` passes its handler the exception of the empty local result, always null, and not
  the exception that was raised (futures/callbacks/recover_callback.hpp:32). `Futures.Apply` follows
  the code; `RecoverAsDocumented` and `FinalAsDocumented` say exactly when that makes no difference,
  `RecoverLosesException` gives an input where it does.
* `List::PushBack` on an empty list links the node to itself and counts it twice (`IntrusiveList.List.PushBack`,
  `PushBackDeliversTwice`, `TwoWaitersMiscounted`). The channel uses it for its waiting consumers: the same receive is
  handed two values (`Channel.AnsweredTwice`), or a send follows a null link (`Channel.SecondOfTwoCrashes`).
  Once a consumer that waited alone has been answered and has returned, head and tail of the list point to an awaiter
  that is gone: the next receive that has to wait writes through it (`Channel.NextWaiterCrashes`), unless its own awaiter
  lies at the same address (`SameAddressHeals`). `Channel.RightExactly` says which sequences of calls and returns a channel
  serves as it should, and `RightForAll` which calls are safe whatever the stacks look like: after a single consumer was
  answered only `TryReceive` (`SpentForGood`).
* `ThreadPool::robbers_count_` is never lowered, so workers stop stealing for good after as many attempts as there
  are workers (`ThreadPoolTheorems.StealingEnds`).

## Model

| member | source | states |
|---|---|---|
| CountedPointers.UnpackPack | lockfree/queue.hpp:42-71 | packing an address below 2^48 and a count below 2^16 into one 64-bit word loses neither |
| CountedPointers.WordsAgree | lockfree/queue.hpp:28-77 | two counted pointers are equal exactly when their words are, so a compare-exchange on words is one on (address, count) pairs |
| CountedPointers.IncreaseWord | lockfree/queue.hpp:73-75 | adding 2^48 modulo 2^64 adds one to the count modulo 2^16 and never touches the address |
| MsQueueTheorems.LinearizableQueue | lockfree/queue.hpp:144-212 | every interleaving of any number (below 2^16) of threads, with addresses reused as soon as they are free, is a linearizable FIFO queue as long as no node carries 2^60 unsettled acquisitions: a real-time order of the calls exists whose answers are a FIFO queue's |
| MsQueueTheorems.MemorySafe | lockfree/queue.hpp:145-237 | in every reachable state the next dereference of every thread hits an allocated node, a node about to be deleted is out of the list, out of both counted words and out of every other thread's hands, and an element is moved out once |
| MsQueueTheorems.RunKeeps | lockfree/queue.hpp:79-92 | the counting invariant holds in every reachable state: a node's internal count is 2^60 for each attached external counter plus, for each detached one, the acquisitions it counted, less the references released, corrected by 2^16 for each counter overflow |
| MsQueueTheorems.ModestStepKeeps | lockfree/queue.hpp:145-237 | every atomic step, of any thread in any order, keeps that invariant and the linearization while no node carries 2^60 unsettled acquisitions |
| MsQueueTheorems.ShortRunKeeps | lockfree/queue.hpp:79-92 | that limit is not reached in the first 2^60 steps, so those runs keep the invariant without a condition |
| MsQueueTheorems.CountsFit | lockfree/queue.hpp:80-92 | the signed 64-bit internal count stays in range |
| MsQueueTheorems.WordsKeep | lockfree/queue.hpp:42-75 | every counted pointer ever stored or held fits its word, so the model's pairs are the program's words |
| MsQueueReclamation.QuiescentHeap | lockfree/queue.hpp:14-20 | once all operations have returned the allocated nodes are the list and those whose 16-bit count overflowed, nothing else |
| MsQueueReclamation.ShortRunsLeakNothing | lockfree/queue.hpp:225-237 | a run of fewer than 65534 steps leaves nothing allocated but the list once all operations have returned |
| MsQueueReclamation.OnlyUnwrappedDie | lockfree/queue.hpp:225-237 | a node about to be deleted never had a counter overflow: overflow never frees early |
| MsQueueReclamation.OverflowedForever | lockfree/queue.hpp:73-75 | a node whose counter has overflowed is never deleted again, whatever happens later (within the limit of 2^60 acquisitions on a node) |
| MsQueueReclamation.PollingLeaks | lockfree/queue.hpp:183-190 | 65535 `TryPop` calls on an empty queue overflow the count in `head_`, after which no continuation (within the same limit) ever frees that node |
| MsQueueReclamation.LeakedGarbage | lockfree/queue.hpp:180-212 | a complete witness of that leak: poll 65535 times, push once, pop once, and the unlinked dummy is still allocated with no operation running |
| MsQueueProgress.SoloSpends | lockfree/queue.hpp:145-237 | a step of an operation running alone always spends its budget, whatever state the others left behind |
| MsQueueProgress.SoloFinishes | lockfree/queue.hpp:145-237 | an operation running alone returns within its budget |
| MsQueueProgress.ObstructionFree | lockfree/queue.hpp:145-237 | from every reachable state an operation that runs alone returns within 25 of its own steps, while no node carries 2^60 unsettled acquisitions |
| MsQueueProgress.NotLockFree | lockfree/queue.hpp:182-211 | the queue is not lock-free: there is a schedule in which two `TryPop` calls on a non-empty queue run n rounds and neither returns, because each acquisition changes the word the other swings; each round costs the node one of its 2^60 references, so n is anything below 2^60 - 1 |
| MsQueueProgress.LostToAnother | lockfree/queue.hpp:150-221 | what a failed exchange costs: a thread that read a value from `head_` or `tail_` and no longer finds it there lost to another thread, which acquired or swung that word in between |
| MsQueueObject.Queue.Drive | lockfree/queue.hpp:94-115 | the object with its nodes in memory, driven by an arbitrary schedule, reaches exactly the machine's state and keeps the invariant throughout |
| MsQueueObject.Queue.Destroy | lockfree/queue.hpp:124-136 | the destructor destroys the remaining elements once each in queue order and frees exactly the nodes of the list |
| MsQueueObject.Queue.constructor | lockfree/queue.hpp:117-122 | one dummy node in memory, both counted words to it with count 1, an empty abstract queue, and the invariant |
| MsQueueObject.Queue.EnterPush | lockfree/queue.hpp:145-148 | a private node at any free address, new in memory, in no list; every other node stays |
| MsQueueObject.Queue.PushAcquires | lockfree/queue.hpp:214-222 | one round of the acquisition loop: the tail's count goes up by one exactly if the word was the one seen; the tail's node is allocated |
| MsQueueObject.Queue.PushLinks | lockfree/queue.hpp:157 | the linearization point of `Push`: it succeeds exactly if the node acquired has no successor, which then is the last of the list; the new node is linked behind it and the element is last in the abstract queue |
| MsQueueObject.Queue.PushSwings | lockfree/queue.hpp:158-163 | the tail moves to the new node exactly if it is still the word acquired; the abstract queue does not change |
| MsQueueObject.Queue.PopAcquires | lockfree/queue.hpp:214-222 | one round of the acquisition loop on the head, whose node is allocated |
| MsQueueObject.Queue.PopLoadsNext | lockfree/queue.hpp:185-191 | the answer "empty" is chosen only at an instant when the abstract queue is empty; otherwise the successor read is that of an allocated node |
| MsQueueObject.Queue.PopSwings | lockfree/queue.hpp:198-201 | the linearization point of a successful `TryPop`: it wins exactly if the head word is the one acquired, and then the first element leaves the abstract queue and is the one in the new head's node |
| MsQueueObject.Queue.PopTakes | lockfree/queue.hpp:202-203 | the element moved out of its node is the one that left the abstract queue, and it was still there |
| MsQueueObject.Queue.Detaches | lockfree/queue.hpp:231-237 | the internal count of an allocated node goes up by the acquisitions counted less one counter; the node is deleted exactly if that makes it zero |
| MsQueueObject.Queue.Releases | lockfree/queue.hpp:224-229 | the count of an allocated node goes down by one; the node is deleted exactly if that makes it zero |
| MsQueueObject.Queue.Deletes | lockfree/queue.hpp:225-237 | exactly that node leaves memory; it is not in the list, not in either word, and no other thread dereferences or refers to it |
| MsQueueObject.Queue.Act | lockfree/queue.hpp:94-115 | whichever thread the scheduler picks, one atomic step on the real fields: what it dereferences is allocated, the invariant is kept and the new state is the machine's |
| TreiberStackTheorems.LinearizableStack | lockfree/stack.hpp:96-136 | every interleaving of any number (below 2^16) of threads, with weak compare-exchanges failing at will and addresses reused, is a linearizable LIFO stack |
| TreiberStackTheorems.MemorySafe | lockfree/stack.hpp:96-136 | no run touches a node that is not allocated; a node about to be deleted is out of the list and out of every other thread's hands; an element is moved out once |
| TreiberStackTheorems.DeletedAlone | lockfree/stack.hpp:123-134 | the deleting thread is alone with its node |
| TreiberStackTheorems.StepKeeps | lockfree/stack.hpp:96-163 | every atomic step keeps the counting invariant: a linked node's stored count is one more than its acquisitions, a detached node's internal count is the references still held, up to multiples of 2^16 for overflows |
| TreiberStackTheorems.CountsFit | lockfree/stack.hpp:71-78 | the signed 64-bit internal count stays in range for the first 2^63 steps |
| TreiberStackTheorems.QuiescentHeap | lockfree/stack.hpp:123-134 | once all operations have returned every allocated node is in the stack or had its 16-bit count overflow |
| TreiberStackReclamation.OverflowedForever | lockfree/stack.hpp:123-134 | the other half: a node whose counter has overflowed is never deleted, whatever happens later |
| TreiberStackReclamation.ShortRunsLeakNothing | lockfree/stack.hpp:108-136 | a run of fewer than 65536 steps leaves exactly the stack allocated once all operations have returned |
| TreiberStackReclamation.LeakedGarbage | lockfree/stack.hpp:108-136 | a complete witness of the leak: after one push and two `TryPop` calls that fail each other's exchange 65534 times everything has returned and the stack is empty, but its node is allocated and stays so in every continuation |
| TreiberStackTheorems.OnlyUnwrappedDie | lockfree/stack.hpp:123-134 | counter overflow never deletes a node early |
| TreiberStackTheorems.AttachedInChain | lockfree/stack.hpp:93-105 | the counted words lead to the nodes of the stack and to no others |
| TreiberStackProgress.ReturnsAlone | lockfree/stack.hpp:96-136 | from every reachable state an operation that runs alone returns within 3 of its own steps (`Push`) or 11 (`TryPop`), with the top element if there is one, whatever stale words and links the others left it with |
| TreiberStackProgress.StepAdvances | lockfree/stack.hpp:96-163 | a step alone brings every operation nearer to its end, with the same answer still due |
| TreiberStackObject.Stack.constructor | lockfree/stack.hpp:93 | the empty stack satisfies the invariant |
| TreiberStackObject.Stack.EnterPush | lockfree/stack.hpp:97-99 | a private node at any free address, new in memory and not in the stack; every other node stays |
| TreiberStackObject.Stack.PushSwings | lockfree/stack.hpp:102-104 | the linearization point of `Push`: the element goes on top exactly if the head is what the node's link says; a failed or spurious exchange rewrites only that link |
| TreiberStackObject.Stack.PopAcquires | lockfree/stack.hpp:112-116 | one round of the acquisition loop; "empty" is answered only when the abstract stack is empty, and a head acquired is the allocated top node |
| TreiberStackObject.Stack.PopReadsNext | lockfree/stack.hpp:119 | the link is read from a node that is allocated |
| TreiberStackObject.Stack.PopSwings | lockfree/stack.hpp:119-120 | the linearization point of a successful `TryPop`: it wins exactly if the head word is the one acquired, and then the top element leaves, and is the one in that node, even if its address was recycled meanwhile |
| TreiberStackObject.Stack.PopTakes | lockfree/stack.hpp:121 | the element moved out is the one that left, and it was still there |
| TreiberStackObject.Stack.Detaches | lockfree/stack.hpp:123-127 | the internal count of an allocated node goes up by the external count less two; the node is deleted exactly if that makes it zero |
| TreiberStackObject.Stack.Releases | lockfree/stack.hpp:132-134 | the count goes down by one; the node is deleted exactly if that makes it zero |
| TreiberStackObject.Stack.Deletes | lockfree/stack.hpp:126-133 | exactly that node leaves memory; it is not in the stack and no other thread dereferences or holds it |
| TreiberStackObject.Stack.Destroy | lockfree/stack.hpp:144-152 | the destructor deletes the nodes of the stack once each, top first; only nodes whose count overflowed are left |
| TreiberStackObject.Stack.Act | lockfree/stack.hpp:80-94 | whichever thread the scheduler picks, one atomic step on the real fields: what it dereferences is allocated, the invariant is kept and the new state is the machine's |
| TreiberStackObject.Stack.Drive | lockfree/stack.hpp:80-94 | under an arbitrary schedule the object stays equal to the machine and keeps the invariant |
| SpinLock.MutualExclusion | detail/spinlock.hpp:46-78 | for any number of guards and any schedule, at most one is between entering and the end of its release |
| SpinLock.FirstComeFirstServed | detail/spinlock.hpp:46-78 | guards enter in the order of their exchanges on `tail_`, at most one has entered and not left, and no destroyed guard is written to |
| SpinLock.StepKeeps | detail/spinlock.hpp:46-78 | every atomic step keeps the waiting line in agreement with the partially written `next_` links |
| SpinLock.MoverMoves | detail/spinlock.hpp:57-77 | no deadlock: while anyone is in line there is a thread whose next step moves the lock forward, also when a successor has swapped `tail_` but not written `next_` yet |
| SpinLock.LineDrains | detail/spinlock.hpp:46-78 | from any reachable state a bounded number of steps lets every waiting guard in, in order, and out again |
| SpinLock.JoinsAlone | detail/spinlock.hpp:46-61 | from every reachable state a guard not yet in line that runs alone joins it as the last within 3 steps, and has the lock at once exactly if nobody is there |
| SpinLockObject.QueueSpinLock.constructor | detail/spinlock.hpp:84-86 | an unlocked lock with a guard in memory for each thread satisfies the invariant |
| SpinLockObject.QueueSpinLock.Enter | detail/spinlock.hpp:22-24 | a fresh guard object takes the old one's place: no successor, not the owner |
| SpinLockObject.QueueSpinLock.Joins | detail/spinlock.hpp:48-57 | the exchange that succeeds: the guard is last in line; it enters at once exactly if there was no tail, and then nobody is in line |
| SpinLockObject.QueueSpinLock.SwapsTail | detail/spinlock.hpp:48-55 | one round of the loop: the guard joins exactly if the tail is the one seen and the weak exchange does not fail for no reason; otherwise tail and line stay |
| SpinLockObject.QueueSpinLock.LinksBehind | detail/spinlock.hpp:57 | the link is written into the predecessor's guard, whose thread is still in line and which had no successor; no other guard is touched |
| SpinLockObject.QueueSpinLock.Spins | detail/spinlock.hpp:59-61 | the guard enters exactly when its flag is set, and then no other thread holds the lock |
| SpinLockObject.QueueSpinLock.ClearsTail | detail/spinlock.hpp:66-70 | the lock becomes free exactly if nobody joined, and then nobody is in line |
| SpinLockObject.QueueSpinLock.AwaitsNext | detail/spinlock.hpp:72-75 | the releaser goes on exactly once its guard has a successor, and that is a thread that spins and is not the owner |
| SpinLockObject.QueueSpinLock.Grants | detail/spinlock.hpp:77 | the flag is set in the guard of a thread that spins and was not the owner; no other guard is touched |
| SpinLockObject.QueueSpinLock.Act | detail/spinlock.hpp:17-86 | whichever thread the scheduler picks, one atomic step on the real fields: what it dereferences is allocated, the invariant is kept and the new state is the machine's |
| SpinLockObject.QueueSpinLock.Drive | detail/spinlock.hpp:17-86 | under an arbitrary schedule the object stays equal to the machine and keeps the invariant |
| StrandTheorems.InOrderOneAtATime | executors/strand.hpp:24-131 | tasks run one at a time in the order of their pushes, each once: finished, running, left in the batch, being reversed and listed tasks make up the submission log; no batch is scheduled over one that is alive |
| StrandTheorems.OneResponsible | executors/strand.hpp:94-131 | a non-null head has exactly one submitter or batch responsible for it, a null one has none |
| StrandTheorems.NoneStranded | executors/strand.hpp:94-131 | when nobody is submitting and no batch is alive, every submitted task has run |
| StrandTheorems.AlwaysProgress | executors/strand.hpp:94-131 | no state is stuck: the responsible party's next step always makes progress |
| StrandTheorems.Drains | executors/strand.hpp:24-131 | from any reachable state a bounded number of steps of the responsible parties runs every task submitted so far |
| StrandTheorems.SubmitsAlone | executors/strand.hpp:104-109 | a submission that runs alone is the last of the log within 2 steps, whatever head it had seen |
| Strand.RelinkReverses | executors/strand.hpp:84-92 | reversing in place yields the taken tasks oldest first, linked and terminated by null, and changes no other task's link |
| Strand.StepKeeps | executors/strand.hpp:24-131 | every step of any submitter or of the batch keeps the one-word encoding (null, closed, or a list ending in either) in agreement with the tasks submitted |
| StrandObject.StrandExecutor.constructor | executors/strand.hpp:46-52 | an unused strand satisfies the invariant |
| StrandObject.StrandExecutor.Executes | executors/strand.hpp:94-95 | a submission starts with a task that is not queued; no other task object changes |
| StrandObject.StrandExecutor.PushSwings | executors/strand.hpp:104-109 | the task enters the log and the list exactly if the head is what its link says, and whoever found null must lock; a failed exchange rewrites only its own link |
| StrandObject.StrandExecutor.LockSwings | executors/strand.hpp:113-116 | the whole list is taken and the head closed in one exchange, or nothing changes but the value seen |
| StrandObject.StrandExecutor.MakeQueue | executors/strand.hpp:84-92 | the loop over the links in memory computes the in-place reversal: the taken tasks oldest first, ending in null, no other link changed |
| StrandObject.StrandExecutor.LockMakes | executors/strand.hpp:118-121 | the batch scheduled holds the tasks taken, oldest first, linked in memory |
| StrandObject.StrandExecutor.Starts | executors/strand.hpp:26-31 | the task the batch starts is the next of the submission log |
| StrandObject.StrandExecutor.Finishes | executors/strand.hpp:28-29 | a task that has run was the next of the log, and now is among the finished |
| StrandObject.StrandExecutor.Closes | executors/strand.hpp:124-131 | the strand opens exactly if nothing was pushed meanwhile, and then everything submitted has run |
| StrandObject.StrandExecutor.Retakes | executors/strand.hpp:113-116 | the worker takes the tasks that arrived meanwhile, all of them, or nothing changes |
| StrandObject.StrandExecutor.Rebuilds | executors/strand.hpp:118-130 | the batch is rebuilt from them, oldest first |
| StrandObject.StrandExecutor.Works | executors/strand.hpp:24-131 | one step of the batch: each task it starts or finishes is the next in the order of submission, and it leaves only when all have run |
| StrandObject.StrandExecutor.Act | executors/strand.hpp:46-82 | whoever the scheduler picks, one atomic step on the real fields: what it dereferences is allocated, the invariant is kept and the new state is the machine's |
| StrandObject.StrandExecutor.Drive | executors/strand.hpp:46-131 | under an arbitrary schedule of submitters and batch the object stays equal to the machine and keeps the invariant |
| RingQueueTheorems.LinearizableRing | lockfree/ring_queue.hpp:18-80 | one producer and any number of `TryPop` and `Grab` callers under any schedule are a linearizable bounded queue, although slots are read one by one before a single exchange validates them; a `Grab` may take fewer items than there are (its writes to the items' links are in `PoolLinks`) |
| RingQueueTheorems.RemovalsArePrefix | lockfree/ring_queue.hpp:18-80 | 0 <= tail - head <= Capacity always, and the removed items in the order of their exchanges, followed by the contents, are exactly the accepted items |
| RingQueueTheorems.NothingLost | lockfree/ring_queue.hpp:18-80 | any legal sequential history of the bounded queue conserves its items, whatever mix of single and bulk removals |
| RingQueueTheorems.StepKeeps | lockfree/ring_queue.hpp:18-80 | every atomic step keeps the live slots equal to the accepted items, and every copy made so far right unless the head has moved |
| RingQueueTheorems.PushStoreKeeps | lockfree/ring_queue.hpp:26-27 | the producer only overwrites a slot that no live item occupies and no valid copy depends on |
| RingQueueTheorems.GrabTakesAll | lockfree/ring_queue.hpp:63-79 | a `Grab` that wins its exchange holds the first items in order, and as many as it may exactly if no push was published since it read the tail or it asked for no more than it saw |
| RingQueueTheorems.RetryMeansLoss | lockfree/ring_queue.hpp:47-78 | a step that takes a consumer back to the load of the tail is its exchange, the head has moved past the one it held because another consumer removed something, and it goes on with the new head |
| RingQueueProgress.ReturnsAlone | lockfree/ring_queue.hpp:18-80 | from every reachable state an operation that runs alone returns within 5 of its own steps (`TryPush`), 7 (`TryPop`) or 2 * size + 5 (`Grab`), with the answer the contents call for and the contents changed accordingly |
| RingQueueProgress.PopsOldest | lockfree/ring_queue.hpp:37-52 | a `TryPop` alone on a ring that holds something answers the oldest item, which leaves, within 7 steps |
| RingQueueProgress.StepAdvances | lockfree/ring_queue.hpp:18-80 | a step alone brings every operation nearer to its end, with the same answer still due |
| RingQueueGrab.GrabIsNotGreedy | lockfree/ring_queue.hpp:54-80 | `Grab` is not an atomic take-as-many-as-you-can: a run of the ring whose calls and answers have no linearization with that meaning |
| RingQueueGrab.NotGreedy | lockfree/ring_queue.hpp:54-80 | no insertion of effect points into that history is legal for the greedy queue |
| RingQueue.SlotsDiffer | lockfree/ring_queue.hpp:26-45 | items fewer than Capacity + 1 apart never share a slot |
| RingQueue.SlotSteps | lockfree/ring_queue.hpp:65-73 | the wrap-around walk of `Grab` visits the slots of consecutive items |
| RingQueueObject.Ring.constructor | lockfree/ring_queue.hpp:82-88 | the empty ring satisfies the invariant |
| RingQueueObject.Ring.PushLoadsTail | lockfree/ring_queue.hpp:20-24 | "full" is answered exactly if that was decided at the load of the head; otherwise there is room for the item |
| RingQueueObject.Ring.PushStores | lockfree/ring_queue.hpp:26-27 | the slot written holds no item of the ring: the contents stay, and there is room |
| RingQueueObject.Ring.PushPublishes | lockfree/ring_queue.hpp:28 | the linearization point of an accepted push: the item is last, and the ring holds at most Capacity |
| RingQueueObject.Ring.PopLoadsTail | lockfree/ring_queue.hpp:39-43 | null is answered exactly if the tail is the head held, and then the ring is empty; otherwise the slot is read next |
| RingQueueObject.Ring.PopReads | lockfree/ring_queue.hpp:45-46 | the slot read is in bounds, and holds the first item if the head has not moved |
| RingQueueObject.Ring.PopSwings | lockfree/ring_queue.hpp:47-49 | it wins exactly if the head has not moved; then the answer is the oldest item, which leaves; otherwise nothing changes |
| RingQueueObject.Ring.GrabLoadsTail | lockfree/ring_queue.hpp:64-67 | the amount is at most what was asked for, and at most what is there if the head has not moved; the walk starts at the slot of the head |
| RingQueueObject.Ring.GrabReads | lockfree/ring_queue.hpp:69-74 | the slot copied is the one of the next item, in bounds; if the head has not moved, the copies are the first items of the ring in order |
| RingQueueObject.Ring.GrabSwings | lockfree/ring_queue.hpp:75-79 | it wins exactly if the head has not moved; then the copied items are the first of the ring, in order, and exactly they leave; otherwise nothing changes |
| RingQueueObject.Ring.Act | lockfree/ring_queue.hpp:12-88 | whichever thread the scheduler picks, one atomic step on the real fields: what it dereferences is allocated, the invariant is kept and the new state is the machine's |
| RingQueueObject.Ring.Drive | lockfree/ring_queue.hpp:12-88 | under an arbitrary schedule the object stays equal to the machine and keeps the invariant |
| FuturesTheorems.ResultIsFold | futures/future.hpp:125-186 | for any chain of `Then` and `Recover` stages and any order of setting, subscribing and executing, the subscriber is given nothing or, once, the left-to-right fold of the stages |
| FuturesTheorems.FoldIsPassed | futures/callbacks/then_callback.hpp:25-35 | the fold is the input passed through the stages: a value goes through the functor of each `Then` and past each `Recover`, an exception past each `Then` and into the handler of each `Recover`, which is given null |
| FuturesTheorems.ThenComposes | futures/callbacks/then_callback.hpp:25-35 | over a value a chain of `Then` stages is its functors composed from left to right, up to the first that throws, and that exception is the result |
| FuturesTheorems.ThenPipeline | futures/callbacks/then_callback.hpp:25-35 | so in every run such a pipeline outputs nothing or, once, the composed functors' answer, and over an exception that exception, no functor called |
| FuturesTheorems.RendezvousOnce | futures/future.hpp:143-157 | in every lane exactly one of `Set` and `SetCallback` schedules the callback, with the value that was set and a non-null executor, and the cell is freed exactly when both owners are through with it |
| FuturesTheorems.MaximalRunDelivers | futures/future.hpp:125-211 | every run that cannot go on has delivered the fold exactly once and freed every shared cell |
| FuturesTheorems.RunsAreFinite | futures/future.hpp:125-211 | apart from spurious failures of weak exchanges every run stops within 21 steps a stage |
| FuturesTheorems.Progress | futures/promise.hpp:59-79 | every step of a party that has something left to do decreases the work left |
| FuturesTheorems.StepKeeps | futures/future.hpp:143-157 | every step keeps the callback word, the owner count, the value and the stages in agreement |
| FuturesTheorems.RecoverAsDocumented | futures/callbacks/recover_callback.hpp:23-39 | the pipeline's result agrees with the documented one after every stage if and only if no exception reaches a recover handler that would tell it from a null pointer |
| FuturesTheorems.FinalAsDocumented | futures/callbacks/recover_callback.hpp:23-39 | what a caller can check: a pipeline gives the documented final result whatever its handlers do if and only if no exception reaches any of its `Recover` stages |
| FuturesTheorems.RecoverLosesException | futures/callbacks/recover_callback.hpp:32 | a concrete handler (rethrow what you are given) for which the recovered exception is lost |
| FuturesObject.InvokeThen | futures/callbacks/then_callback.hpp:25-35 | the functor's answer to a value; an exception comes back as it is |
| FuturesObject.InvokeRecover | futures/callbacks/recover_callback.hpp:23-39 | a value comes back as it is; to an exception, the handler's answer to null |
| FuturesObject.Pipeline.SetWrites | futures/promise.hpp:62 | the value, the fold of the stages so far, is written into a live cell that has none and is not announced yet |
| FuturesObject.Pipeline.SetSwings | futures/promise.hpp:65-66 | the value in the cell is announced exactly if the word is the one seen and the exchange does not fail for no reason; the promise must schedule exactly if it found a callback, and then the executor is set and the client past its hook |
| FuturesObject.Pipeline.SetSchedules | futures/promise.hpp:68-74 | the cell is alive, has its executor and holds the value; exactly that value goes to the executor, for a continuation never scheduled before |
| FuturesObject.Pipeline.PromiseDrops | futures/promise.hpp:104-109 | the cell is alive before, and freed exactly if the future is gone |
| FuturesObject.Pipeline.constructor | futures/future.hpp:15-19 | a contract: one fresh cell with two owners |
| FuturesObject.Pipeline.Attaches | futures/future.hpp:166-186 | the executor is set and the next cell is new in memory, with two owners and no callback, before a callback is installed here |
| FuturesObject.Pipeline.HookSwings | futures/future.hpp:147-148 | the callback is installed exactly if the word is the one seen and the exchange does not fail for no reason, with the executor set and the next cell in place; the future must schedule exactly if it found the value set, which then is there |
| FuturesObject.Pipeline.HookSchedules | futures/future.hpp:150-156 | the cell is alive, has its executor and holds the value; exactly that value goes to the executor, for a continuation never scheduled before |
| FuturesObject.Pipeline.FutureDrops | futures/future.hpp:159-164 | the cell is alive before, and freed exactly if the promise is gone |
| FuturesObject.Pipeline.Works | futures/future.hpp:152-155 | the task carries the fold of the stages so far; when it runs, the next promise, not set before, is set to the stage's answer (the functor of a `Then` applied to the value, the handler of a `Recover` applied to null, or the input as it is), or the one output to the fold of all stages |
| FuturesObject.Pipeline.Act | futures/future.hpp:125-186 | whichever party the scheduler picks, one atomic step on the real fields: what it dereferences is allocated, the invariant is kept and the new state is the machine's |
| FuturesObject.Pipeline.Drive | futures/future.hpp:125-186 | under an arbitrary schedule the object stays equal to the machine and keeps the invariant |
| FuturesAll.AllSetsOnce | futures/api/all.hpp:25-50 | in every interleaving of the subscribers' steps the output is set at most once, to the promised result, and the shared block is never used after deletion |
| FuturesAll.AllDelivers | futures/api/all.hpp:25-50 | when every subscriber has returned (at least one input) the output is set and the block deleted |
| FuturesAll.AllEnds | futures/api/all.hpp:25-50 | nobody waits for anybody: once each subscriber has moved four times, in any order and any interleaving, the output is set and the block deleted |
| FuturesAll.ExpectedValues | futures/api/all.hpp:36-43 | the promised result of all values is their list in input order, independent of completion order |
| FuturesAll.ExpectedException | futures/api/all.hpp:39-46 | otherwise it is the exception of the failing input with the lowest index |
| FuturesAll.AllOfNothing | futures/api/all.hpp:27-52 | with no inputs the promise is never set |
| FuturesAll.VectorPromise.constructor | futures/api/all.hpp:13-25 | an empty slot and one pending countdown for each input |
| FuturesAll.VectorPromise.Stores | futures/api/all.hpp:29 | the subscriber writes its result into its own slot, which was empty, and no other; the block is alive |
| FuturesAll.VectorPromise.CountsDown | futures/api/all.hpp:31-33 | the subscriber goes on exactly if all others have counted down |
| FuturesAll.VectorPromise.Gather | futures/api/all.hpp:37-46 | the loop over the slots computes the promised result |
| FuturesAll.VectorPromise.Collects | futures/api/all.hpp:36-47 | every slot is written and everybody has counted down; the output, not set before, is set to the promised result |
| FuturesAll.VectorPromise.Deletes | futures/api/all.hpp:48 | the block is deleted while it is alive, when all others have returned and the output is set |
| FuturesAll.VectorPromise.Act | futures/api/all.hpp:25-50 | whichever subscriber the scheduler picks, one atomic step on the real fields: what it dereferences is allocated, the invariant is kept and the new state is the machine's |
| FuturesAll.VectorPromise.Drive | futures/api/all.hpp:25-50 | in an arbitrary order of the subscribers' steps the object stays equal to the machine and keeps the invariant |
| ManualExecutor.Serve | executors/manual_executor.hpp:20-40 | any mix of `RunAtMost`, `RunNext` and `Drain` works through a prefix of one fixed sequence, the level order of the submitted forest, after what ran before |
| ManualExecutor.OrderIsLevels | executors/manual_executor.hpp:11-32 | queue order with children appended is level order: all tasks of one generation, then all of the next |
| ManualExecutor.OrderComplete | executors/manual_executor.hpp:42-48 | that order contains every task of the forest exactly as often as it was submitted |
| ManualExecutor.OrderSize | executors/manual_executor.hpp:42-48 | its length is the size of the forest |
| ManualExecutor.LevelFirst | executors/manual_executor.hpp:38-40 | a generation runs before anything it spawns, in front of what already waits |
| ManualExecutor.Executor.constructor | executors/manual_executor.hpp:66-69 | an empty executor |
| ManualExecutor.Executor.Execute | executors/manual_executor.hpp:11-14 | the task goes to the end; counter and queue length agree |
| ManualExecutor.Executor.RunTask | executors/manual_executor.hpp:25 | running a task appends its children in order |
| ManualExecutor.Executor.RunFirst | executors/manual_executor.hpp:22-29 | the oldest task leaves the queue and runs |
| ManualExecutor.Executor.RunAtMost | executors/manual_executor.hpp:20-32 | runs exactly the smaller of limit and queue length, of the tasks waiting at the call only; the counter equals the queue length again afterwards |
| ManualExecutor.Executor.RunNext | executors/manual_executor.hpp:34-36 | runs the first task if there is one; the forest left is smaller |
| ManualExecutor.Executor.Drain | executors/manual_executor.hpp:38-40 | runs exactly the present generation and leaves exactly its children |
| ManualExecutor.Executor.WaitIdle | executors/manual_executor.hpp:42-48 | terminates, leaves nothing, and its result is the size of the forest; the tasks ran in level order |
| IntrusiveQueue.Queue.constructor | intrusive/structures/queue.hpp:13 | empty |
| IntrusiveQueue.Queue.Push | intrusive/structures/queue.hpp:24-40 | appends on the real links; null is ignored; no other node changes |
| IntrusiveQueue.Queue.PushQueue | intrusive/structures/queue.hpp:43-62 | concatenates, and empties the other queue |
| IntrusiveQueue.Queue.TryPop | intrusive/structures/queue.hpp:65-82 | takes the first node, or answers null exactly if empty; and, whatever others have written into the links, hands out the head and goes on behind it, or ends if that was the tail |
| IntrusiveQueue.Queue.Clear | intrusive/structures/queue.hpp:84-88 | forgets the nodes without touching them |
| IntrusiveQueue.CutListLosesTheRest | intrusive/structures/queue.hpp:65-82 | if the link of the first node is cleared from outside when it is popped, the queue answers null from then on although its size is not zero, also when the link is restored afterwards |
| IntrusiveList.List.constructor | intrusive/structures/list.hpp:13 | empty |
| IntrusiveList.List.PushFront | intrusive/structures/list.hpp:24-39 | prepends; both directions and the size agree |
| IntrusiveList.List.PushBack | intrusive/structures/list.hpp:41-51 | appends if and only if the list was not empty; an empty list becomes a node linked to itself and counted twice; and, whatever the links are, links the tail to the node, which is the new tail |
| IntrusiveList.List.TryPopFront | intrusive/structures/list.hpp:54-72 | takes the first node; also what it does to the broken lists `PushBack` makes and, whatever the links are, that it goes on behind the head |
| IntrusiveList.List.TryPopBack | intrusive/structures/list.hpp:74-92 | takes the last node |
| IntrusiveList.List.Unlink | intrusive/structures/list.hpp:94-114 | removes the node at any position and keeps the rest in order |
| IntrusiveList.PushBackDeliversTwice | intrusive/structures/list.hpp:41-51 | after `PushBack` on an empty list the same node is popped twice before the list is empty |
| IntrusiveList.TwoWaitersMiscounted | intrusive/structures/list.hpp:41-72 | after two pushes and one pop the list claims a node behind its last one |
| ThreadPoolTheorems.NothingLostOrDoubled | executors/thread_pool/with_waitidle/thread_pool.cpp:63-269 | in every run before `Stop` of the pool whose lists nobody else writes to, for every task: submitted = ran + waiting in queues, rings and slots + in some thread's hands, also in the middle of an overflow, a refill or a theft; the wait group counts the unfinished (with the links, see `PoolLinksTheorems`) |
| ThreadPoolTheorems.IdleMeansDone | executors/thread_pool/with_waitidle/thread_pool.cpp:92-94 | when the wait group of that pool reads zero every submitted task has run as often as it was submitted, and every queue, ring, slot and hand is empty, spawned tasks included |
| ThreadPoolTheorems.StepKeeps | executors/thread_pool/with_waitidle/thread_pool.cpp:63-269 | every step of every thread of that pool keeps the balance |
| ThreadPoolTheorems.MoveKeeps | executors/thread_pool/with_waitidle/thread_pool.cpp:117-139 | moving tasks between a thread's hands, one ring, one slot and the global queue keeps the balance exactly if nothing is created or dropped on the way |
| ThreadPoolTheorems.QueueCounterExact | executors/thread_pool/with_waitidle/thread_pool.cpp:80-156 | `routines_in_queue_` is the number of waiting tasks whenever no thread is between a queue operation and its counter update |
| ThreadPoolTheorems.StealingEnds | executors/thread_pool/with_waitidle/thread_pool.cpp:243-269 | `robbers_count_` is the number of thefts ever attempted: the pool steals at most once for each worker it has |
| ThreadPoolTheorems.RingAnswers | lockfree/ring_queue.hpp:18-80 | the pool's ring operations are answers the linearized ring allows |
| ThreadPoolTheorems.RingAnswersAll | lockfree/ring_queue.hpp:54-80 | every amount a `Grab` may answer is one the pool model can choose |
| ThreadPoolFairness.BypassBound | executors/thread_pool/with_waitidle/thread_pool.cpp:141-208 | while a worker's draws are not multiples of 61, the item at position k of its ring has left after at most 21 * (k + 1) tasks taken, however often its LIFO slot is refilled and whatever the other threads do |
| ThreadPoolFairness.DelaySpent | executors/thread_pool/with_waitidle/thread_pool.cpp:177-208 | every task the worker takes spends some of that delay, and nobody else adds to it |
| ThreadPoolSearch.FoundInOrder | executors/thread_pool/with_waitidle/thread_pool.cpp:141-211 | over every run, with all other threads moving in between: a search ends with a task from a place p, and every place that comes before p in the order of its draw and its LIFO takes in a row had nothing; or it ends without a task, and then the slot and the ring of the worker are empty, the global queue was empty at some moment of the search, and there was no theft left or the theft took nothing |
| ThreadPoolSearch.SearchEnds | executors/thread_pool/with_waitidle/thread_pool.cpp:177-211 | a search is over with its seventh step at the latest, whatever the other threads do |
| ThreadPoolSearch.SearchKeeps | executors/thread_pool/with_waitidle/thread_pool.cpp:177-208 | at every moment of a search the places whose turn is over had nothing |
| ThreadPoolSearch.OneWorkerHangs | executors/thread_pool/with_waitidle/thread_pool.cpp:256-258 | a pool of one worker, which the constructor asserts against, does nothing more once the worker sets out to steal |
| ThreadPoolPlaces.SearchStep | executors/thread_pool/with_waitidle/thread_pool.hpp:67-84 | a step of a search passes over the place whose turn it is only if that is empty, and takes what the place is for: the slot's task, the oldest of the own ring, the first of the global queue with exactly its share behind it (none if the draw sent it there before its own ring), or at most the 256 oldest of another worker's ring |
| ThreadPoolPlaces.PlacesAreQueues | executors/thread_pool/with_waitidle/thread_pool.cpp:112-139 | every step of every thread treats the global queue and every ring as queues: the oldest leave, and others join behind the youngest |
| ThreadPoolHints.PutsWhereHinted | executors/thread_pool/with_waitidle/thread_pool.cpp:63-129 | over every run: a submission ends with its task last in the global queue, last in the worker's ring, or in the LIFO slot, as the hint says, and then what the slot held when it began is last in the ring |
| ThreadPoolHints.SubmitEnds | executors/thread_pool/with_waitidle/thread_pool.cpp:117-121 | it ends with its fifth step at the latest, if each overflow finds something to move |
| ThreadPoolHints.SubmitBegins | executors/thread_pool/with_waitidle/thread_pool.cpp:63-64 | it is counted, by the wait group too, before the task is put anywhere |
| ThreadPoolHints.LifoNext | executors/thread_pool/with_waitidle/thread_pool.cpp:123-151 | over every run: after a task submitted b with the LIFO hint and then nothing more, with fewer than twenty LIFO takes in a row behind the worker and no draw that sends it to the global queue, the next task the worker takes is b, within ten of its steps |
| ThreadPoolHints.BypassesInARow | executors/thread_pool/with_waitidle/thread_pool.cpp:196-204 | the count that the choice of a strategy tests is how many tasks in a row the worker has last taken out of its LIFO slot |
| ThreadPoolHints.OverflowMoves | executors/thread_pool/with_waitidle/thread_pool.cpp:131-139 | the oldest tasks of a full ring, at most 512, go to the end of the global queue in their order, and the task that found no room is tried again |
| ThreadPoolHints.BatchArrives | executors/thread_pool/with_waitidle/thread_pool.cpp:236-240 | a batch arrives: when the worker goes on it is with the task it took first, and the others are at the end of its ring in their order, except for those that have left there already, after at most four steps for each |
| ThreadPoolQueue.PushRoutine | executors/thread_pool/with_waitidle/thread_pool.cpp:112-115 | a task is appended to the global queue on the links of the tasks themselves |
| ThreadPoolQueue.TakeIn | executors/thread_pool/with_waitidle/thread_pool.cpp:131-139 | what an overflow grabbed follows what was in the global queue, in order, and the grabbed list is empty |
| ThreadPoolQueue.TryTake | executors/thread_pool/with_waitidle/thread_pool.cpp:220-235 | null exactly if the global queue is empty; otherwise the task taken, the share relinked into a list of its own and the rest are the old queue in order; a worker that may take a share takes n of the tasks that remain with n <= 512, n * workers <= remaining, and n = 512 or (n + 1) * workers > remaining, any other none |
| ThreadPool.ShareIsFair | executors/thread_pool/with_waitidle/thread_pool.cpp:223 | the quotient computed is that share |
| PoolLinksSteps.StepKeeps | lockfree/ring_queue.hpp:18-80 | the pool, the steps of its rings and the links stay in agreement: every step of any thread keeps each ring's contents those of the pool and every task in at most one place |
| PoolLinksTheorems.IsPoolRun | executors/thread_pool/with_waitidle/thread_pool.cpp:63-269 | whatever the rings and the links do, the pool's part of every run is a run of the pool with ring operations in one step |
| PoolLinksLists.IntactIsWhole | intrusive/structures/queue.hpp:65-82 | a list of distinct tasks hands out what it should if and only if each of its links leads to the next task |
| PoolLinksLists.StepTears | lockfree/ring_queue.hpp:69-77 | from a state whose lists all hold together a step leaves one that does not if and only if it writes, for a `Grab` that is still copying, the link between two tasks of a list, or is the winning exchange of a `Grab` whose own links others have overwritten |
| PoolLinksTheorems.ListsHold | lockfree/ring_queue.hpp:53-80 | in every state of a run every list hands out exactly its tasks in order, if and only if no step of the run is one of those |
| PoolLinksTheorems.NothingLost | executors/thread_pool/with_waitidle/thread_pool.cpp:63-269 | conservation with the real links: if no list was read wrong so far and all hold together, each task is run, or reachable by what rings, slots, lists and hands really hand out, in total exactly as often as it was submitted |
| PoolLinksTheorems.NeverTornReadsRight | executors/thread_pool/with_waitidle/thread_pool.cpp:220-269 | in a run that tears no list every list is read right |
| PoolLinksTheorems.MisreadLoses | executors/thread_pool/with_waitidle/thread_pool.cpp:260-266 | a pop that finds the wrong link leaves the wrong list, one that finds null leaves none, and the tasks behind are in no other place |
| PoolLinksOverlap.NoOverlapNoTear | lockfree/ring_queue.hpp:63-77 | a condition that does not mention lists: if no `Grab` writes a link after items were taken from the ring behind its back or while another one copies from the same ring, no list is torn |
| PoolLinksOverlap.WritesWaiting | lockfree/ring_queue.hpp:69-72 | a `Grab` writes the links of tasks that still wait in the ring, unless items were taken from there since it read the head; only then may it write to a task that has run |
| PoolLinksLoss.TaskLost | executors/thread_pool/with_waitidle/thread_pool.cpp:256-268 | a complete run of three workers that loses a task: a second thief clears the link of a task the first has won, and the task behind it is in no ring, queue, slot, list or hand |
| FiberMutexTheorems.StepKeeps | fibers/sync/mutex.hpp:12-34 | every step of a fiber and of the workers that suspended it keeps guard, queue, ownership and marks in agreement |
| FiberMutexTheorems.StepBreaks | detail/spinlock.hpp:26-36 | a step breaks the mutex (a guard released twice, a fiber in use deleted) if and only if a fiber returns from `Lock` before its worker has set `released_`, or a task is discarded twice since the fiber last suspended |
| FiberMutexTheorems.BreaksExactly | fibers/awaiters.hpp:46-62 | a run breaks the mutex if and only if it has such a step |
| FiberMutexTheorems.ServesExactly | fibers/sync/mutex.hpp:12-34 | a run ends with nothing broken, at most one owner, the grants in order of arrival and every waiting fiber queued behind an owner, if and only if it has no such step |
| FiberMutexTheorems.PromptRunsHold | fibers/fiber.cpp:10-16 | runs in which every worker has marked the guard and discarded its task before the fiber runs again break nothing |
| FiberMutexTheorems.OneOwner | fibers/sync/mutex.hpp:12-34 | at most one fiber has been given the mutex and not passed it on, in every run |
| FiberMutexTheorems.FirstComeFirstServed | fibers/sync/mutex.hpp:12-34 | fibers are given the mutex in the order of their critical sections in `Lock` |
| FiberMutexTheorems.ResumedWhenSuspended | fibers/awaiters.hpp:46-62 | a fiber is made runnable only once it is fully suspended and its guard no longer holds the spinlock, by the owner, with `closed_` true before and after |
| FiberMutexTheorems.NobodyForgotten | fibers/sync/mutex.hpp:12-34 | a waiting fiber is in the queue behind an owner |
| FiberMutexTheorems.HolderMoves | fibers/sync/mutex.hpp:12-34 | whoever holds the spinlock can move, and releases it within three moves |
| FiberMutexTheorems.OwnerMoves | fibers/sync/mutex.hpp:12-34 | with the spinlock free the owner's next move brings it nearer to passing the mutex on, unless it is in, or about to start, a second release |
| FiberMutexTheorems.NeverStuck | fibers/sync/mutex.hpp:12-34 | as long as nothing is broken and nobody is about to break it, the guard's holder or the owner can move and comes nearer to releasing |
| FiberMutexTheorems.LocksAlone | fibers/sync/mutex.hpp:12-22 | if the mutex is open and the spinlock free, a fiber that calls `Lock` alone is inside with its fourth move |
| FiberMutexTheorems.SecondReleaseSticks | detail/spinlock.hpp:64-78 | once a guard that nobody had queued behind is released a second time the mutex is closed for ever and nobody is given it any more |
| FiberMutexBreaks.ReleasesTwice | detail/spinlock.hpp:26-36 | a complete run of two fibers in which the second is resumed before its guard is marked, releases it again, and no continuation ever gives anybody the mutex |
| FiberMutexBreaks.GrantsAgain | detail/spinlock.hpp:26-78 | the same race with another guard queued behind the first: a complete run in which the second release grants the lock to a guard that had it already and is gone |
| FiberMutexBreaks.DeletesSuspended | fibers/fiber.hpp:80-88 | a complete run in which two workers discard tasks of the same fiber and the second deletes it while it waits in the queue |
| FiberMutexObject.Mutex.constructor | fibers/sync/mutex.hpp:45-49 | an open mutex with an empty queue in memory |
| FiberMutexObject.Mutex.Lock | fibers/sync/mutex.hpp:13-20 | the critical section of `Lock` on the real queue of awaiters: the fiber gets the mutex exactly if it is open, and is last in the queue otherwise; given and waiting fibers stay in order of arrival |
| FiberMutexObject.Mutex.Unlock | fibers/sync/mutex.hpp:25-33 | the critical section of `Unlock`: the first waiter is given the mutex, which stays closed exactly then, and the others keep their order |
| Channel.RightExactly | channels/channel.hpp:29-94 | after any sequence of critical sections and returns of receives, wherever the awaiters lie, the i-th receive has been handed the i-th accepted value and no awaiter that is gone was touched, if and only if the events are in order: no send comes when one of a crowd of waiting consumers is left, nor when the list starts with a consumer answered while it waited alone; and once that one has returned no receive has to wait, unless at the same address |
| Channel.RightForAll | channels/channel.hpp:29-94 | the condition on the calls alone: the channel is right wherever awaiters lie and whenever answered receives return, if and only if no send comes when one of a crowd is left, and nothing but `TryReceive` after a send found a single consumer that had waited alone |
| Channel.SpentForGood | channels/channel.hpp:46-79 | after such a send exactly the continuations that only call `TryReceive` are safe |
| Channel.Served | channels/channel.hpp:29-94 | events in order are served in full: as many receives are answered as there are values and tickets, and the other values wait in the buffer and, only if that is full, with their producers, in the order they were sent |
| Channel.StepAgrees | channels/channel.hpp:46-87 | an event in order keeps buffer, producers, the coded list over the awaiters in memory, and the deliveries in agreement |
| Channel.OutOfOrderBreaks | channels/channel.hpp:54-79 | an event that is not in order touches null or an awaiter that is gone, or hands its value to a receive that is not the next |
| Channel.BrokenStays | channels/channel.hpp:29-94 | what went wrong is not put right by anything later |
| Channel.Accounted | channels/channel.hpp:29-94 | nothing sent is lost or doubled, in order or not, whoever it is delivered to |
| Channel.NeverWaited | channels/channel.hpp:46-60 | events under which no receive ever has to wait are in order |
| Channel.AnsweredTwice | channels/channel.hpp:46-79 | one receive waits and two values are sent before it returns: it is handed both |
| Channel.SecondOfTwoCrashes | channels/channel.hpp:46-79 | two receives wait and two values are sent: the second send follows the null link behind the last consumer |
| Channel.NextWaiterCrashes | channels/channel.hpp:46-60 | a receive that waited alone is answered and returns: the next one that has to wait writes through its awaiter, which is gone |
| Channel.SameAddressHeals | channels/channel.hpp:46-79 | unless its own awaiter lies at the same address: then the list is as after the first wait, and the next send is right |
| ChannelObject.ServeOne | channels/channel.hpp:29-71 | one call or return on the array, the counters and the list of awaiters in memory does what the channel on values does, and misses an awaiter exactly if that does |
| ChannelObject.Serve | channels/channel.hpp:29-94 | so does any sequence of them, up to the first miss |
| ChannelObject.Buffered.constructor | channels/channel.hpp:26-27 | an empty channel of capacity at least one |
| ChannelObject.Buffered.Store | channels/channel.hpp:82 | the place written holds no buffered value: the value is last in the buffer and the others stay |
| ChannelObject.Buffered.TrySend | channels/channel.hpp:41-44 | the value is accepted exactly if the list counts a consumer or the buffer has room, and the receive whose awaiter is at the head is resumed exactly if it counts one |
| ChannelObject.Buffered.Send | channels/channel.hpp:29-39 | the producer waits exactly if there is neither a consumer nor room |
| ChannelObject.Buffered.PopFirst | channels/channel.hpp:76-77 | the receive at the head of the list is answered and the list goes on behind it, no link changed |
| ChannelObject.Buffered.TakeFromProducers | channels/channel.hpp:89-94 | the first waiting producer's value takes the place just freed |
| ChannelObject.Buffered.TakeOldest | channels/channel.hpp:49-50 | the oldest value leaves the buffer, and the first waiting producer's takes a place |
| ChannelObject.Buffered.TryReceive | channels/channel.hpp:62-71 | answers the oldest buffered value, or nothing exactly if none is buffered, and a waiting producer is resumed exactly if one was answered |
| ChannelObject.Buffered.PushLast | channels/channel.hpp:54-57 | a new awaiter at a free address, which may have been used before, is linked behind the tail and is the new tail |
| ChannelObject.Buffered.ReceiveAt | channels/channel.hpp:46-60 | the oldest value, or an awaiter at the end of the list |
| ChannelObject.Buffered.Return | channels/channel.hpp:58-60 | the awaiter is gone exactly if its receive was answered |
| ChannelObject.Buffered.Misses | channels/channel.hpp:54-79 | tells exactly whether the next step touches null or an awaiter that is gone |

## Left out

- Weak memory orders, `pause`, `notify`/`wait` blocking, thread creation, Boost context switching, and C++ move and template machinery.
- MsQueueTheorems.LinearizableQueue: for fewer than 2^16 threads and while no node carries 2^60 unsettled acquisitions, because beyond either limit the code's own counters no longer mean what they are for.
- TreiberStackTheorems.LinearizableStack: for fewer than 2^16 threads, for the same reason.
- MsQueueReclamation.OverflowedForever: under the same limit of 2^60 unsettled acquisitions on a node, as are `PollingLeaks`, `OnlyUnwrappedDie` and the methods of `MsQueueObject`.
- MsQueueProgress.ObstructionFree: under the same limit; `NotLockFree` runs one node down to the end of its 2^60 references, where the limit is met.
- RingQueueTheorems.LinearizableRing: head and tail are unbounded counters; the code's 64-bit ones are not modelled past 2^64 pushes, where the slot of an item would jump because 2^64 is not a multiple of Capacity + 1.
- RingQueueObject.Ring.GrabReads: items are values there; the link that the `Push` of the copy loop writes into the item is a step of `PoolLinks`.
- FuturesTheorems.RunsAreFinite: does not bound how often a weak compare-exchange fails for no reason.
- FuturesTheorems.ResultIsFold: all stages carry one type of value, functors are total functions that answer a value or an exception, and `GetResult`, which blocks, is not modelled.
- ThreadPoolTheorems.IdleMeansDone: before `Stop` only, which forces the wait group to zero, and for lists whose links nobody else writes; sleeping and waking of workers, and whether stealing balances the load, are not modelled.
- ThreadPoolTheorems.NothingLostOrDoubled: a ring operation is one step, which `RingQueueTheorems.LinearizableRing` justifies, and lists are sequences of tasks; with real links see `PoolLinksTheorems.ListsHold` and `NothingLost`.
- PoolLinksTheorems.ListsHold: the critical sections of the global queue's mutex are one step each, a task is submitted only while it is not queued, and the model goes on with the list as it should be after a `TryPop` that reads a wrong link, so what such a pool does next is not modelled. Tasks are never freed: what a `Grab` that was outrun writes into a task that has run already (`PoolLinksOverlap.WritesWaiting`) changes a link and nothing else.
- PoolLinksOverlap.NoOverlapNoTear: one direction only; the exact condition is `PoolLinksLists.StepTears`, since a write that overlaps another may also put back the link that is there.
- Channel.RightExactly: capacity of at least one, and an awaiter lies where no other awaiter of the channel is; other uses of its memory count as gone. Suspension of the fibers is the protocol modelled for the mutex, with the same late mark, and what a fiber resumed twice does is not modelled.
- ThreadPoolSearch.SearchEnds: the draw for a victim names another worker at once, and `ThreadPoolHints.SubmitEnds`, `LifoNext` and `BatchArrives` bound their steps for overflows that find something to move; a full ring that thieves empty in that moment, or draws repeated by chance, cost more steps.
- RingQueueProgress.ReturnsAlone: exchanges there are strong; `TreiberStackProgress.ReturnsAlone`, `SpinLock.JoinsAlone` and `StrandTheorems.SubmitsAlone` are for exchanges that do not fail for no reason.
- ChannelObject.Serve: the values of suspended producers are a sequence, since their queue is the one of `IntrusiveQueue`.
- FiberMutexTheorems.OneOwner: the spinlock is taken as atomic there, as `SpinLock.MutualExclusion` proves.
- FiberMutexTheorems.BreaksExactly: the machine stops at the first write to memory that may be gone (a guard granted the lock again, a fiber deleted), so what follows is not modelled.
- ManualExecutor.Executor.RunAtMost: tasks submit tasks but do not call `RunAtMost` on the executor that is running them.
- StrandObject.StrandExecutor.Executes: a task is submitted only while it is not queued, as for every intrusive container; `Drive` takes schedules that respect that.
- `channels/select.hpp` and `SelectorAwaiter`: one-of-several receives do not hold up (position 0 is never re-indexed, other channels' lists are changed without their locks), so nothing is claimed.
- `fibers/sync/waitgroup.hpp` and `condition_variable.hpp`: waiters can be lost or relinked wrongly; nothing is claimed.
- `FirstOf`: the lifetime of its shared object is not modelled.
- `ManualExecutor::HasTasks`, whose test is inverted, and the destructors of the executors.
- `Clear` of the queue and the stack, which only repeats `TryPop`.
- `executors/thread_pool/without_waitidle`, a second copy of the pool; `lockfree/atomic_shared_ptr.hpp`, `coroutines` and `main.cpp`.

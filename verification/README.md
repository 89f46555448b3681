# The concurrency core of quicflow, modelled and proved in Dafny

The server answers chat messages over QUIC. Each connection is a `SerializedObject`, an actor that
processes its tasks one at a time without holding a lock; its task queue is the token-free path of a
lock-free queue; messages travel as length-prefixed frames. This project models those three parts and
proves what they promise. Run `dafny verify dfyconfig.toml`.

## How the model is built

Concurrent code is modelled as transition systems: one atomic operation per step, any number of threads,
steps interleaved in any order. The results are about every state of every run. Code that is meant to be
looked at one call at a time is modelled as classes and methods on arrays and linked objects, with the
loops and the order of updates of the source.

| files | what they model |
|---|---|
| `Serializer`, `SerializerProgress`, `SerializerOrder`, `SerializerProgram`, `SerializerWitness` | the protocol of `count_` and `queue_`, for many objects and threads with nested calls; termination, exactly-once, the broadcast; the order of a caller's tasks, and that it is the order of the program |
| `SerialRunner` | the same methods as objects updated in place, on one thread, each atomic operation matched with a step of `Serializer` |
| `FreeList`, `FreeListCalls`, `BlockPool` | the reference-counted free list, on 32-bit reference words; what its calls do for their callers; the pool that all producers share, with the counter of blocks never issued |
| `Claims`, `ClaimRefinement` | the optimistic claim of indices by consumers; that it implements the claim of the block queue |
| `BlockQueue`, `BlockRing`, `BlockInv`, `BlockProducer`, `BlockShared`, `BlockProducerSteps`, `BlockConsumer`, `BlockTheorems`, `BlockBounds` | one implicit producer and its consumers on blocks and the circular block index: steps, invariant, preservation by each kind of step, results; the distance of head and tail |
| `Circular`, `BlockWords`, `Integers` | 64-bit wrap-around, related to the unbounded indices |
| `BlockObjects`, `BlockSteps`, `BlockFacts`, `ImplicitQueue` | the implicit producer as a class, refining a sequence |
| `TokenFreeDequeue` | the choice among producers |
| `ProbeTable`, `ProducerTables` | the table from thread ids to producers, refining a map |
| `Framing` | the frames of chat messages |
| `Sums`, `Options` | sums over sequences; an optional value |

The layers are tied together rather than stated apart. `ImplicitProducer` carries a ghost `st`, a state of
`BlockQueue`, and each method takes it through the steps of that transition system as it changes the
objects; `Linked` says that objects, words and state agree. `SerialRunner.Server` carries a ghost `run` of
`Serializer` in the same way. So the invariants that hold under concurrency are what proves the methods
correct, and the methods show that the steps are the ones the code takes. `ClaimRefinement` runs `Claims` and
`BlockQueue` side by side, and `BlockPool` any number of `BlockQueue`s on one `FreeList`.

The main invariants, in words:

* An object's queue length plus its runners that hold a task equals `count_` plus the calls between
  `queue_.enqueue` and `fetch_add`; it has one runner if `count_` is positive and none otherwise. The second
  part needs the first, because the runner may consume a task before it is counted.
* A free list node that is not marked has one owner, or one thread linking it, or one thread taking it, or
  is on the list; a marked one is parked. A thread about to swing the head holds a reference that keeps the
  node's next pointer from changing.
* Reservations, in the order in which they were made, each carry an overcommit snapshot that is at most what
  earlier reservations have been found to lack. Hence a reservation that is told it is backed leaves room
  for all earlier ones.
* The block index holds the keys of a window of block numbers no wider than its capacity, which contains
  every live block. A consumer in a lookup holds an unreleased index, so its block is live, so neither it
  nor anything between it and the tail position that it read can leave the window or be overwritten. A
  superseded header keeps this for the blocks inserted before it was superseded.
* The used slots of the main hash table and the live threads that are only in older tables together are at
  most `implicitProducerHashCount`. That count is less than half the capacity, and never more than the used
  slots of all tables.

Where the code does not do what one might expect of it, that is stated as a result. A caller's tasks need
not start in the order in which the caller submitted them: `CallerOrderExactly` says exactly when they do,
and `CallerOrderIsNotKept` is a run of two threads in which they do not. The number of blocks that
`enqueue_bulk` computes is right if and only if the blocks fit in the index range (`BaseDiffExactly`, with
`BaseDiffOverflows` as an input that fails).

## Model

| member | source | states |
|---|---|---|
| `Serializer.StepInv` | src/core/serialized_object.cpp:16-73 | Every atomic step of every thread keeps, for each object: queue length plus runners holding a task = count_ plus calls between enqueue and increment; exactly one runner when count_ > 0, none otherwise; and all calls but a thread's innermost are inside Process. |
| `Serializer.MutualExclusion` | src/core/serialized_object.cpp:16-68 | In every state of every run, over all stacks of all threads, an object has at most one runner frame: two runner frames of it are the same frame. |
| `Serializer.RunnerExistsIffCounted` | src/core/serialized_object.cpp:18-34 | count_ > 0 if and only if some frame of some thread runs the object, even while the runner holds a task that is not counted yet. |
| `Serializer.SubmitToRunningObjectEnqueues` | src/core/serialized_object.cpp:18-29 | A submission to an object that is being run anywhere, by the submitting thread included, starts nothing and leaves all objects as they are: it goes on to the queue. |
| `Serializer.DepthBound` | src/core/serialized_object.cpp:16-35 | However tasks submit to each other, no thread's stack holds more runner frames than there are objects, and besides them at most the innermost call. |
| `Serializer.DrainNeverWaits` | src/core/serialized_object.cpp:55-72 | At Dequeue the queue holds count_ plus the calls between enqueue and increment, at least one element, so the spin loop takes one iteration. |
| `Serializer.FastPathOvertakes` | src/core/serialized_object.cpp:18-19 | A task takes the fast path if and only if count_ is 0 at its CAS, and it then overtakes exactly as many queued tasks as there are calls between enqueue and increment. |
| `SerializerOrder.CallerOrderExactly` | src/core/serialized_object.cpp:16-73 | Over every run, for any number of threads: what has started of a thread's submissions to an object is the first of them in the order of submission if and only if the thread has never won a CAS on the object while a task of its own was in the queue. |
| `SerializerOrder.CallerOrderIfCounted` | src/core/serialized_object.cpp:18-67 | That order is kept if no CAS of the thread on the object is won while a call is between the enqueue and the increment. |
| `SerializerOrder.SingleThreadOrder` | src/core/serialized_object.cpp:16-73 | With one thread the tasks of each object start in the order of their submission, nested submissions included: the submitted ones are the started ones, the queue and the one call that has yet to enqueue, in this order. |
| `SerializerProgress.StepConserves` | src/core/serialized_object.cpp:16-73 | Whatever f weighs a submission: the weight of what has started plus that of what is still to start, at any depth, is the same after every step. |
| `SerializerProgress.FinishedIsQuiescent` | src/core/serialized_object.cpp:22-34 | When all threads have finished, every count_ is 0 and every queue empty. |
| `SerializerProgress.ExactlyOnce` | src/core/serialized_object.cpp:16-68 | In a finished run each submission has started exactly as often as the callers' submissions lead to it: none lost, none repeated. |
| `SerializerProgress.StepDecreases` | src/core/serialized_object.cpp:16-73 | Every step of every thread takes a natural-number measure of the state down. |
| `SerializerProgress.RunsAreBounded` | src/core/serialized_object.cpp:22-68 | Every run, under any scheduling, takes no more steps than the measure of its first state. |
| `SerializerProgress.NobodyWaits` | src/core/serialized_object.cpp:16-73 | A thread that has not finished can always take a step. |
| `SerializerProgress.StuckMeansDone` | src/core/serialized_object.cpp:22-73 | A run that cannot be extended has all threads finished, all objects idle, and everything demanded started exactly once. |
| `SerializerProgress.BroadcastDelivers` | src/manager/connection_manager.cpp:72-75 | A message handled inside a task of a connection, by any of any number of threads while the others submit to the same connections: when the run is over the send task has started, on each connection of the map, once for this message, and otherwise exactly as often as the other threads demanded it. |
| `SerializerProgress.BroadcastOnly` | src/manager/connection_manager.cpp:72-75 | If no other thread sends the same task, it has started exactly once on each connection of the map and on no other, although the sends are nested submissions. |
| `SerializerProgram.ProgramOrder` | src/core/serialized_object.cpp:16-36 | In every reachable state, for any number of threads, what a started task has submitted so far is the first of what its body submits, in the order of the body, and all of it once its Process has returned; so the order of submission is that of the program. |
| `SerializerProgram.CallerProgram` | src/core/serialized_object.cpp:16-36 | What a caller outside any task has submitted so far is the first of its calls, in their order, and all of them when none is left to make. |
| `SerializerProgram.CallerStartsInOrder` | src/core/serialized_object.cpp:16-73 | For any number of threads: as long as a caller's tasks on an object start in the order of submission, those it submits outside any task have started in the order of its calls. |
| `SerializerProgram.BodyStartsInOrder` | src/core/serialized_object.cpp:16-73 | With one thread the tasks that one body submits to an object start in the order of the body, and when the thread has finished all of them have started. |
| `SerializerProgram.CallsStartInOrder` | src/core/serialized_object.cpp:16-73 | With one thread the tasks called for outside any task start, on each object, in the order of the calls, whatever they submit in turn. |
| `SerializerProgram.FlatStartsInOrder` | src/core/serialized_object.cpp:16-73 | With one thread, and tasks that submit nothing, what has started on an object is the first of the calls on it, in order, and at the end all of them. |
| `SerializerProgram.BroadcastOrder` | src/manager/connection_manager.cpp:72-75 | Whatever other threads do, the sends of a broadcast are submitted in the order of the connections, one each, and all of them by the time the handler returns. |
| `SerializerWitness.CallerOrderIsNotKept` | src/core/serialized_object.cpp:18-67 | A concrete run of two threads without nested submissions in which a caller's second task starts while its first is still queued: one thread is the only number that guarantees the order. |
| `SerialRunner.Server.Serialize` | src/core/serialized_object.cpp:16-36 | As a nested call on objects updated in place, on one thread: returns to the calls it was made in, through steps of the protocol; terminates because the measure of the run goes down. |
| `SerialRunner.Server.RunQueue` | src/core/serialized_object.cpp:47-64 | The do-while drain, entered to dequeue, ends with the runner's call finished and is matched step by step by the protocol. |
| `SerialRunner.Server.Enqueue` | src/core/serialized_object.cpp:65-68 | Enqueue first, increment second: the caller becomes the runner if the count before was 0, and otherwise its call is over. |
| `SerialRunner.Server.Decrement` | src/core/serialized_object.cpp:23-26 | The decrement after a task: the runner goes on to dequeue if the count before was greater than 1, and otherwise its call is over. |
| `SerialRunner.Server.Dequeue` | src/core/serialized_object.cpp:69-73 | The task it returns is the one the protocol's runner goes on to process; the loop around try_dequeue is never needed. |
| `SerialRunner.Server.CallAll` | src/core/serialized_object.cpp:16-73 | A caller's submissions in order, whatever they submit in turn: on return every object has count 0 and an empty queue, and every submission the calls lead to has started exactly as often as they lead to it; on each object the tasks of the calls have started in the order of the calls, which are all its tasks if they submit nothing, and the tasks submitted by a task in the order of its body. |
| `FreeList.StepInv` | include/core/concurrentqueue.h:1459-1538 | Every step of every thread keeps the placement of every node and the pending next pointers, on 32-bit reference words. |
| `FreeList.OnePlace` | include/core/concurrentqueue.h:1459-1538 | In every reachable state a node is in exactly one place: with one owner, on the list, being taken by one thread, being linked by one thread, or parked with the bit set and references outstanding; its count is the list's reference plus those the threads hold. |
| `FreeList.OneOwner` | include/core/concurrentqueue.h:1473-1498 | try_get never hands a node to two callers: no two threads own the same node. |
| `FreeList.HeadCasIsSafe` | include/core/concurrentqueue.h:1489-1496 | No ABA: when the CAS on the head finds its node there, the next pointer read earlier is still that node's and is the second of the list; and then the assertion on the should-be-on-freelist bit holds. |
| `FreeList.ListExists` | include/core/concurrentqueue.h:1526-1538 | In every reachable state the head starts one and only one acyclic chain of distinct nodes. |
| `FreeList.NothingLost` | include/core/concurrentqueue.h:1459-1538 | When no thread is inside an operation, each node is on the list or owned by exactly one thread, and not both. |
| `FreeListCalls.LoneGet` | include/core/concurrentqueue.h:1473-1510 | From any state of the invariant, whatever the other threads are in the middle of: try_get, run alone, ends with the first node of the list, the rest of the list left as it was, or, if the list is empty, with nothing and in the same state. |
| `FreeListCalls.LoneAdd` | include/core/concurrentqueue.h:1459-1538 | Likewise add, run alone, ends with the node at the head of the list, its next pointer the old head; or, if some thread still refers to the node, with the node marked for the last of those and the list as it was. |
| `FreeListCalls.LoneReturns` | include/core/concurrentqueue.h:1459-1538 | From every reachable state a thread in the middle of try_get or add, wherever it was interrupted and however old what it has read, returns within 27 steps once it runs alone: no failed CAS leaves it with a value that makes it fail for ever. |
| `FreeListCalls.EmptyHanded` | include/core/concurrentqueue.h:1477-1510 | In every run, whatever the others do: a try_get that returns without a node had read a null head when it last read the head. |
| `BlockPool.StepInv` | include/core/concurrentqueue.h:3039-3114 | Every step of any number of threads in requisition_block, of the free list and of any number of producers and their consumers keeps the invariant: the counter fits its word, the reserve is what the counter and the allocator have not come to, each producer owns the blocks it has in use. |
| `BlockPool.OnePlace` | include/core/concurrentqueue.h:3056-3114 | In every reachable state a block of the initial pool is in exactly one place: never issued, which is at or above the counter; on the free list; being taken or linked by one thread, or parked; held by one thread; or in use by one producer. Likewise a block of the allocator. |
| `BlockPool.IssuedOnce` | include/core/concurrentqueue.h:3056-3065 | No block is issued twice, to two threads or to one, and the pool blocks issued are exactly those below the counter. |
| `BlockPool.PoolFirst` | include/core/concurrentqueue.h:3056-3105 | In every reachable state a thread that has turned to the free list or the allocator has done so because the counter is at the end of the pool, and the allocator has given out nothing before that. |
| `BlockPool.LoneRequisition` | include/core/concurrentqueue.h:3095-3109 | From any state of the invariant, whatever everybody else is in the middle of: requisition_block, run alone, gives the next block of the pool while there is one; else the first of the free list; else a new one if it may and memory allows; else nothing, with nothing changed. |
| `BlockPool.LoneReturns` | include/core/concurrentqueue.h:3056-3109 | In every reachable state a thread in the middle of requisition_block, wherever it was interrupted, returns within 31 moves once it runs alone. |
| `BlockPool.NotShared` | include/core/concurrentqueue.h:3095-3114 | No two producers ever have the same block in use. |
| `BlockPool.InUsePlace` | include/core/concurrentqueue.h:2508-2607 | A block in use by a producer is in its index, in its hands or in those of one of its consumers, and in one of them only. |
| `BlockPool.CanTake` | include/core/concurrentqueue.h:3095-3109 | A producer that waits for a block can take any that requisition_block has returned, whatever is in it. |
| `Claims.StepInv` | include/core/concurrentqueue.h:2551-2615 | Every step of any number of consumers and of the producer keeps the history invariant: each reservation's overcommit snapshot is no larger than what earlier reservations proved unbacked. |
| `Claims.HeadNeverPassesTail` | include/core/concurrentqueue.h:2554-2562 | With any mix of single and bulk dequeues and arbitrarily old overcommit snapshots, headIndex, even counting the claims decided but not yet executed, never exceeds tailIndex. |
| `Claims.ClaimsAreDisjoint` | include/core/concurrentqueue.h:2787-2801 | The claimed index ranges follow one another, do not overlap, and end at or before the tail. |
| `Claims.CountersConserved` | include/core/concurrentqueue.h:2554-2615 | dequeueOptimisticCount = headIndex + dequeueOvercommit + reservations in flight, in every reachable state. |
| `Claims.LoneDequeue` | include/core/concurrentqueue.h:2780-2879 | With no dequeue in flight, one that runs alone gets exactly min(max, tail - head) elements from the head on, so a single dequeue succeeds if and only if headIndex < tailIndex; otherwise it leaves the state as it was. |
| `Claims.BackingIs` | include/core/concurrentqueue.h:2785-2792 | In every reachable state, what the second test of a dequeue finds behind its reservation is the number of elements in the queue, less what the others have in flight as far as it was not reserved later, and less what has been given back since the overcommit was read. |
| `Claims.PartlyBacked` | include/core/concurrentqueue.h:2791-2801 | The last reservation, with a current snapshot and nothing else in flight, gets min(want, tail - head) elements from the head on, also when that is only part of it or nothing, and gives the rest back. |
| `ClaimRefinement.ClaimRefines` | include/core/concurrentqueue.h:2551-2562 | The protocol on the counters implements the one-step claim of the block queue, with everything else interleaved: a thread that comes to claim n elements finds n published and unclaimed ones at the head, and its fetch_add on the head is the queue's claim of them. |
| `ClaimRefinement.DequeueEnabled` | include/core/concurrentqueue.h:2551-2615 | A dequeue that has not claimed yet can always go on. |
| `BlockTheorems.StepInv` | include/core/concurrentqueue.h:2487-3008 | Every step of the producer, growing the index and rolling back included, and of every consumer keeps the invariant of index, blocks, counts and histories. |
| `BlockTheorems.LookupFindsBlock` | include/core/concurrentqueue.h:2948-2964 | The assertion of the lookup: after reading header, tail and tail key in separate steps, while the producer inserts, rewinds and doubles the index, a consumer arrives at the entry with the key of its block and the pointer to it. |
| `BlockTheorems.ConsumerNeverStuck` | include/core/concurrentqueue.h:2565-2609 | A consumer at work can always take its next step: every key it reads is valid, every pointer it follows not null, every slot it reads full, every count within the block size. |
| `BlockTheorems.ProducerNeverStuck` | include/core/concurrentqueue.h:2487-2548 | So can the producer, whatever allocation yields and even when it fails. |
| `BlockTheorems.Delivered` | include/core/concurrentqueue.h:2562-2597 | What has been moved out at an index is the element published there; an index below the head has been moved out, or exactly one consumer is on its way to it. |
| `BlockTheorems.IdleDelivered` | include/core/concurrentqueue.h:2562-2612 | When no dequeue is under way, exactly the indices below the head have been moved out. |
| `BlockTheorems.MovesOwnElement` | include/core/concurrentqueue.h:2568-2597 | A consumer about to move an element out finds the published element of its index in the slot, and nobody has taken it before. |
| `BlockTheorems.WritesToLiveBlock` | include/core/concurrentqueue.h:2535-2546 | The block the producer writes to, through tailBlock or a new block, is in the index, and no consumer is releasing it. |
| `BlockTheorems.ReleasesEmptyBlock` | include/core/concurrentqueue.h:2599-2607 | A consumer removes a block from the index only after all its elements have been moved out, it alone removes it, and no other consumer still has uncounted elements of it. |
| `BlockTheorems.FreesAlone` | include/core/concurrentqueue.h:2857-2867 | A block about to go back to the pool is out of the index and in nobody else's hands. |
| `BlockTheorems.OnePlace` | include/core/concurrentqueue.h:2508-2607 | A block of this producer is in exactly one place: in the index, in the producer's hands or in one consumer's; any other block is in none. |
| `BlockTheorems.IdleBlocks` | include/core/concurrentqueue.h:2508-2607 | When nothing is under way the producer keeps exactly the blocks with an index not yet dequeued: all others have gone back. |
| `BlockTheorems.GoneForGood` | include/core/concurrentqueue.h:2599-2607 | A block number that has left the index never returns: each block of elements is released once. |
| `BlockTheorems.EnqueueAllOrNothing` | include/core/concurrentqueue.h:2626-2773 | With consumers interleaved in any way and room or memory running out at any point, an enqueue from start to end has published all its elements, or nothing: same tail block, no new block in the index or kept, and the index tail at the last block again. |
| `BlockBounds.BoundedDistance` | include/core/concurrentqueue.h:2489-2497 | With the producer's test for room made on words and any number of consumers, in every reachable state the tail is less than half the index range and at most the limit ahead of the head, so that circular_less_than of their words says whether there is an element. |
| `BlockBounds.BoundedOrder` | include/core/concurrentqueue.h:2643-2661 | In every reachable state any two indices from the head to the end of the last block compare as their words do. |
| `Circular.AgreesExactly` | include/core/concurrentqueue.h:477-483 | circular_less_than on the stored words agrees with the order of the unbounded indices, less than a full range apart, exactly when they differ by at most half the range (less than half upwards). |
| `Circular.LessThanSpan` | include/core/concurrentqueue.h:477-483 | At any distance, a word is circularly less than precisely those less than half a range after it. |
| `Circular.SignedExactly` | include/core/concurrentqueue.h:2958-2960 | The signed reading of a word difference is the distance of the indices exactly when that fits the signed range. |
| `Circular.RingWrap` | include/core/concurrentqueue.h:2960-2961 | Wrapping a negative offset to a word does not change the ring position it leads to, in a ring whose capacity divides the range. |
| `Circular.BaseWord` | include/core/concurrentqueue.h:2953-2953 | Block base and place in the block, computed on the word, are those of the unbounded index. |
| `BlockWords.FullExactly` | include/core/concurrentqueue.h:2494-2497 | The test for room on the words, half the range and the subqueue limit, refuses exactly when one more block would be half the range or more, or more than the limit, past the head. |
| `BlockWords.ClaimExactly` | include/core/concurrentqueue.h:2556-2561 | With no other dequeue under way, the wrapping test on the optimistic count succeeds exactly when head < tail. |
| `BlockWords.BaseDiffExactly` | include/core/concurrentqueue.h:2642-2645 | The wrapping difference of block bases in enqueue_bulk is the size of the blocks it needs if and only if those fit in the index range. |
| `BlockWords.BaseDiffOverflows` | include/core/concurrentqueue.h:2642-2645 | The failing input: for a count of 2^64 - 31 and an empty producer the difference is 0, as if no block were needed. |
| `BlockWords.LookupWords` | include/core/concurrentqueue.h:2956-2960 | The signed quotient of two wrapped block bases is their distance in blocks, negative ones included. |
| `BlockWords.EndIndex` | include/core/concurrentqueue.h:2808-2810 | Where the part of a bulk dequeue in one block ends, computed on words, is the minimum of the claim's end and the block's. |
| `ImplicitQueue.ImplicitProducer.constructor` | include/core/concurrentqueue.h:2423-2429 | A producer begins as the empty sequence, also when memory for its index cannot be had. |
| `ImplicitQueue.ImplicitProducer.NewBlockIndex` | include/core/concurrentqueue.h:2966-3008 | A failure changes nothing; otherwise the new ring has twice the capacity, begins with the old entries in order, oldest first, and goes on with fresh invalid ones; the tail is at the newest old entry. |
| `ImplicitQueue.ImplicitProducer.InsertBlockIndexEntry` | include/core/concurrentqueue.h:2900-2933 | Inserts the key after the tail, in a doubled index if the next entry is taken (whose next entry is then invalid, as asserted), and yields that entry, or leaves the blocks, elements and links as they were. |
| `ImplicitQueue.ImplicitProducer.GetBlockIndexIndexForIndex` | include/core/concurrentqueue.h:2948-2964 | On words and index objects the lookup finds the ring position of the block, from a tail before or after it. |
| `ImplicitQueue.ImplicitProducer.Enqueue` | include/core/concurrentqueue.h:2487-2548 | The contents become the old ones followed by the element, or on failure stay, with tail block, blocks and pool unchanged; it cannot fail while the tail block has room, and if memory does not run out it succeeds exactly when the new tail stays less than half the range, and at most the limit, from the head (rounded up to whole blocks). No block of the pool or in use is lost. |
| `ImplicitQueue.ImplicitProducer.Dequeue` | include/core/concurrentqueue.h:2551-2619 | Fails exactly on the empty sequence, and otherwise removes and returns its front, through counters, index lookup, block release and wrap-around; no block is lost. |
| `ImplicitQueue.ImplicitProducer.EnqueueBulk` | include/core/concurrentqueue.h:2626-2773 | The contents become the old ones followed by all the elements, or stay exactly as they were with tailIndex, tailBlock and the blocks in use as before, so that every block taken is in the pool again: no block of the pool or in use is lost. It cannot fail if no new block is needed, and if memory does not run out it succeeds exactly when there is room for all the blocks within half the range and the limit. |
| `ImplicitQueue.ImplicitProducer.DequeueBulk` | include/core/concurrentqueue.h:2780-2879 | Takes exactly the first min(max, length) elements, in order, and leaves the rest; no block is lost. |
| `ImplicitQueue.ImplicitProducer.AddBlocksToFreeList` | include/core/concurrentqueue.h:3080-3087 | Every block of the chain of a failed bulk enqueue goes back to the pool, none of the others. |
| `ImplicitQueue.ImplicitProducer.RequisitionBlock` | include/core/concurrentqueue.h:3095-3114 | A block of the pool if there is any, else a new one if that is allowed and memory can be had. |
| `ImplicitQueue.ImplicitProducer.InMemory` | include/core/concurrentqueue.h:2948-2964 | Between calls every element of the sequence sits in the slot of its index in the block that the entry found by the lookup points to, under that block's key. |
| `ImplicitQueue.ImplicitProducer.SizeApprox` | include/core/concurrentqueue.h:1737-1742 | With no operation beside it, exactly the number of elements. |
| `TokenFreeDequeue.TryDequeue` | include/core/concurrentqueue.h:1124-1156 | Removes the front of the first of the largest among the first three non-empty producers in the list and changes no other; finds nothing only if every producer is empty. |
| `ProbeTable.EmptySlot` | include/core/concurrentqueue.h:3411-3448 | A table with fewer used slots than slots has an empty one, which is why every probe loop ends. |
| `ProbeTable.Find` | include/core/concurrentqueue.h:3410-3449 | The probe stops at the slot of the id if and only if the table has it, whatever the hash function and however many slots were freed and reused before. |
| `ProbeTable.Place` | include/core/concurrentqueue.h:3507-3524 | The id goes to the first slot on its way that is no thread's, empty or reusable; no other slot changes, and every id stays within reach of its probe. |
| `ProbeTable.Free` | include/core/concurrentqueue.h:3550-3560 | The slot of the id, if the table has it, becomes reusable; the others stay within reach. |
| `ProducerTables.RoomToMove` | include/core/concurrentqueue.h:3417-3424 | A thread found only in an older table always has room in the main one: used slots are fewer than the count. |
| `ProducerTables.CountMove` | include/core/concurrentqueue.h:3423-3440 | Moving a thread to the main table keeps the count above its used slots plus the threads only in older ones. |
| `ProducerTables.CountExit` | include/core/concurrentqueue.h:3550-3560 | A thread's exit keeps it too, so the slot it leaves may be reused without being counted again. |
| `ProducerTables.NewCapacity` | include/core/concurrentqueue.h:3462-3465 | The new capacity is a power of two, at least twice the old one and more than twice the count, and the least such. |
| `ProducerTables.ProducerTable.constructor` | include/core/concurrentqueue.h:3332-3348 | An empty table of 32 slots in which no thread has a producer, with a count of 0 and no producers. |
| `ProducerTables.ProducerTable.RecycleOrCreateProducer` | include/core/concurrentqueue.h:3227-3263 | Yields a producer that no live thread has: the first inactive one in the list, the list unchanged, or, only if none is inactive, a new one in front of it; fails exactly if none is inactive and memory cannot be had. |
| `ProducerTables.ProducerTable.GetOrAddImplicitProducer` | include/core/concurrentqueue.h:3388-3533 | Refines a map: a known thread gets its own producer and the map stays; a new one gets one that no other thread has, the first inactive one or, if there is none, a new one. The id is then in the main table, in the first slot on its way that was free. The count rises by the number of slots newly used, for a new thread only, and never exceeds the used slots of all tables. The table doubles exactly when one thread more makes it half full and memory allows. It fails only for a new thread, exactly when the table must grow or a producer must be created and memory cannot be had. |
| `ProducerTables.ProducerTable.ThreadExited` | include/core/concurrentqueue.h:3536-3564 | The thread leaves the map, and only it; its producer may be recycled; its slots stay used, as reusable ones, and the count stays. |
| `Framing.GetTotalLength` | src/network/quic_buffer_reader.cpp:49-55 | The number of bytes in all buffers, as a 32-bit word. |
| `Framing.CopyDataFromBuffers` | src/network/quic_buffer_reader.cpp:7-46 | For buffers of less than 2^32 bytes in all: the destination gets the slice of the concatenation and keeps the rest, true exactly when the slice is complete (and reaches past the offset); for any lengths, nothing past the asked length is written. |
| `Framing.TryParseStringMessage` | src/network/quic_buffer_reader.cpp:60-109 | Finds a body exactly if the stream, however cut, begins with the digits of the body's length to the base 256, the least significant first, in four bytes, and then has the whole body, of at most 2^20 bytes. |
| `Framing.SendJsonMessage` | src/network/quic_connection.cpp:87-107 | Byte i of the first four is digit i of the length to the base 256, byte 4 + i is byte i of the body, and there is nothing else. |
| `Framing.RoundTrip` | src/network/quic_buffer_reader.cpp:66-104 | Parsing a framed body with anything after it gives the body if and only if it is at most 2^20 bytes long. |
| `Framing.AnyFragmentation` | src/network/quic_buffer_reader.cpp:60-109 | Parsing the buffers, for any split of a frame and trailing bytes of less than 2^32 bytes in all, empty buffers included, yields exactly the body that was framed, if and only if it is at most 2^20 bytes long. |
| `Framing.IncompleteMessage` | src/network/quic_buffer_reader.cpp:69-98 | No proper prefix of a framed body is parsed as a message. |
| `Framing.ParsedWasFramed` | src/network/quic_buffer_reader.cpp:78-104 | Whatever is parsed, the stream begins with the frame of it: the parser accepts nothing else. |

## Left out

- EnqueueBulk: only for a count whose new blocks fit in the index range, because otherwise the block count computed by the source is wrong; `BlockWords.BaseDiffExactly` proves that this is the exact condition.
- SendJsonMessage: only for a body whose length, as a 32-bit word, leaves room for the header in another such word, because otherwise the total length wraps and what the source does is undefined.
- TryParseStringMessage: says what is found for buffers of less than 2^32 bytes in all, because the source adds their lengths up in 32 bits.
- DequeueBulk: with max 0 the source still looks up the block index for an index that it does not claim; the model returns at once, because the lookup has no effect on the result or the state.
- FreeList.OnePlace: needs fewer than 2^30 threads, so that 31 bits count the references, of which a thread holds at most two at a time.
- BlockTheorems.OnePlace: of one producer, whose blocks it places; the places in the pool that all producers share are those of `BlockPool.OnePlace`.
- C++ memory orders and fences: every atomic operation takes effect at once and in one order for all threads.
- The queue inside the serializer protocol is atomic and keeps the order of each submitting thread.
- Indices are unbounded in `Claims` and `BlockQueue`; `Circular`, `BlockWords` and `BlockBounds` relate them to the words, and `BlockQueue` names a block by its base index divided by the block size.
- Nested serializer calls in place are modelled for one thread only; for any number of threads the protocol is modelled on values.
- The width of `count_`, and `isDestory_`, which is never set.
- `SerializeAsync` is a submission; what a task does besides submitting is not modelled.
- The map of connections is a snapshot during one broadcast; JSON parsing and its errors are left out.
- RequisitionBlock: in the class, where one call runs at a time, the pool is what one producer finds and leaves, and the blocks of the initial pool are not told apart from those of the free list; the counter, and a pool shared by all producers, are in `BlockPool`.
- TryDequeue: one call at a time, each producer with a pool of its own, so that the loop over the other producers has nothing to find; a dequeue that finds its producer emptied by others is in `Claims` and `ClaimRefinement`, for one producer.
- Memory: an allocation either succeeds, with arbitrary contents, or fails; `BlockPool` has as many blocks as memory has room for.
- The hash tables while several threads resize them at once, and the wait for another thread's resize: the tables are modelled one call at a time.
- Hash functions are arbitrary, thread ids are numbers, and masking with a capacity that is a power of two is taking the remainder.
- The start of a new block, which `enqueue` and `enqueue_bulk` each spell out, is one method; the test for a missing block index is made at the beginning of a call rather than at the first insertion.
- Exception branches: the elements are shared pointers, whose copies and moves do not throw.
- `ExplicitProducer`, tokens and rotation, destructors, moving and swapping of queues, and debug statistics: the server does not use them.
- Several frames in one receive event: the source parses one and drops the rest, and so does the model.
- MsQuic calls, certificates, configuration, starting and stopping, logging and signals.

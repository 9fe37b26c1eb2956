# Lock-free containers: a verified model

This project models the containers of the fibconcurrent library in Dafny and
proves that they do what they are for. Every container is a *step machine*: the
shared memory, plus a program counter and registers for each thread, plus
history that no access reads (only the rule on which nodes a caller owns refers
to it). One step is one access to shared memory (a read, a
store, a compare-and-swap, a double-word compare-and-swap, an exchange or a
fetch-and-add). A run is any schedule: an arbitrary sequence of threads taking
one step each and starting operations, with any number of threads. The main
results hold at every step of every run.

Each container's module follows the same plan.

1. `State`, `Pc` and the step functions: the operation, access by access, with
   the source's branches.
2. An invariant, proved for every action in `NextInv` and for every run in
   `RunInv`.
3. The main results: what the container is (a FIFO, a stack, an atomic deque, one
   elected worker), which single step of each operation takes effect, when an
   operation may fail or answer "empty", and that an operation running alone is
   exact.
4. The answers, in a module of their own: an observer compares the states before
   and after each action of a run and books, for each thread, what its own steps
   put in or took out and what its calls were answered. In every run the two
   agree, but for what a thread still has in hand; a call fails only for a cause
   that arose during that very call; and an operation returns within a stated
   number of its own accesses, or as soon as it is left alone.
5. The in-place form: a class with the source's fields, whose methods perform the
   same accesses by updating the fields and arrays, each proved equal to the
   step function of part 1 on the old state; and `Interleave`, which performs a
   whole schedule in place and is proved equal to the run of part 1, so that the
   main results hold of it. A schedule must respect what callers are trusted
   with (`Allowed`); an action that does not changes nothing in the model, so
   leaving such actions out loses no run.

| file | models |
|---|---|
| `Common.dfy` | optional values, index masks as modulo, N * K |
| `Ledger.dfy` | what callers see of a run: whose step took effect, who was told what |
| `RingBuffer.dfy`, `RingAnswers.dfy` | the multi-producer multi-consumer ring buffer |
| `StealBuffer.dfy`, `StealAnswers.dfy` | the FIFO steal buffer (unsharded) |
| `AtomicDeque.dfy` | histories of one atomic deque, what the deque and the stack are compared with |
| `CircularArray.dfy`, `Deque.dfy`, `DequeAnswers.dfy` | the growable work-stealing deque |
| `MpmcLifo.dfy`, `LifoAnswers.dfy` | the counter-tagged stack |
| `DistFifo.dfy`, `DistAnswers.dfy` | the single-producer FIFO with a counter-tagged head |
| `MpscFifo.dfy`, `MpscAnswers.dfy`, `WorkQueue.dfy`, `WorkQueueAnswers.dfy` | the multi-producer single-consumer FIFO and the work queue over it |
| `HazardProtocol.dfy` | hazard pointers: use, check, retire and scan, slot by slot, while records join |
| `HazardRecords.dfy` | joining the record list and keeping the retire thresholds right |
| `HazardScan.dfy` | one thread's retired list and scan: loops, plist, sort, binary search, relinking |
| `HazardRefinement.dfy` | the scan of `HazardScan` refines the scan of `HazardProtocol`, whatever other threads do meanwhile |
| `MpmcFifo.dfy`, `MpmcAnswers.dfy` | the optimistic multi-producer multi-consumer FIFO over `HazardProtocol` |

## Assumptions

- Memory is sequentially consistent: each barrier does what its comment says.
- Each atomic builtin, and the double-word compare-and-swap, is one step.
- Counters do not wrap; an index mask is a modulo (`Common.SlotIsModulo`), proved
  for every size, not only powers of two.
- A caller follows the rules the source states: it owns the nodes it pushes, it
  owns the nodes it is handed, and only the elected worker asks for work. What a
  caller writes into the nodes it owns is arbitrary and may happen at any step.
- Reading a node that has been popped and reused is safe for the two
  counter-tagged containers, as their source assumes, and returns anything.

## Findings about the code

- Steal buffer, pop: the recheck `new_low >= high` is commented as detecting a
  stolen last item. When `new_low == high` nobody stole it: pop itself has
  claimed index `high - 1` and drops it. So pop returns an item if and only if
  at least two are queued (`StealBuffer.PopAlone`), a lone item is lost
  (`StealBuffer.LoneItemIsLost`), and this is the only way an index is ever lost
  (`StealBuffer.DiscardsOnlyItsOwn`).
- `dist_fifo_trypop` can answer EMPTY while items are queued all along, when the
  head node it looked at was popped and reused meanwhile
  (`DistFifo.SpuriousEmpty`, and from the initial state
  `DistFifo.SpuriousEmptyFromStart`). EMPTY is exact as long as that node is
  still the head, and wrong only when it is not (`DistFifo.EmptyIsExact`); then
  the answer is up to whoever owns the node (`DistFifo.StaleEmptyIsArbitrary`).
- `wsd_work_stealing_deque_steal` can answer EMPTY while the only item is still
  there, when a pop in flight is after it (`Deque.StealCanMissTheItem`, and from
  the initial state `Deque.MissedItemFromStart`). With a current reading of top
  that is the one exception: with no pop in flight EMPTY is answered exactly
  when the deque is empty (`Deque.StealEmptyIsExact`).
- hazard_pointer.h asks for a retire threshold above twice H = N * K; the code
  uses exactly 2 * N * K, and that is enough
  (`HazardScan.FreeStaysBelowThreshold`).

## Model

| member | source | states |
|---|---|---|
| Common.SlotIsModulo | include/fibconcurrent/work_stealing_deque.h:77-82 | the slot of an index is the index modulo the size, the masking of every buffer |
| Common.SlotWindowPair | include/fibconcurrent/lockfree_ring_buffer.h:85-85 | two indices within one lap share a slot only if they are equal |
| RingBuffer.RunIsFifo | include/fibconcurrent/lockfree_ring_buffer.h:76-121 | in every run the values popped, in the order of the CASes on low, are the first values pushed in the order of the CASes on high; low <= high <= low + size; size() never exceeds the capacity |
| RingBuffer.PushRefines | include/fibconcurrent/lockfree_ring_buffer.h:76-93 | of a trypush's steps only its successful CAS changes the queue; it appends the argument, and there was room |
| RingBuffer.PopRefines | include/fibconcurrent/lockfree_ring_buffer.h:104-121 | of a trypop's steps only its successful CAS changes the queue; it removes the first item, the one that will be returned |
| RingBuffer.SlotWritesAreClean | include/fibconcurrent/lockfree_ring_buffer.h:88-118 | every store lands on a NULL slot, every clear erases the value just claimed, and no two pending writes hit one slot |
| RingBuffer.PushFailsForCause | include/fibconcurrent/lockfree_ring_buffer.h:86-92 | with both counter readings current, trypush gives up exactly when the buffer is full or its slot is popped and not yet cleared |
| RingBuffer.PopFailsForCause | include/fibconcurrent/lockfree_ring_buffer.h:113-120 | with both readings current, trypop gives up exactly when the queue is empty or its first item is claimed and not yet stored |
| RingBuffer.TryPushAlone | include/fibconcurrent/lockfree_ring_buffer.h:76-93 | run alone, trypush succeeds exactly when the buffer is not full, and appends |
| RingBuffer.TryPopAlone | include/fibconcurrent/lockfree_ring_buffer.h:104-121 | run alone, trypop returns and removes the first item, NULL exactly when empty |
| RingBuffer.NextInv | include/fibconcurrent/lockfree_ring_buffer.h:65-121 | every step of every thread keeps the slot life-cycle invariant |
| RingAnswers.RunAnswers | include/fibconcurrent/lockfree_ring_buffer.h:76-121 | in every run each thread's trypop has returned exactly the items its own CASes on low took, in order, but for one claimed and not yet cleared, and all these CASes together are the history of pops; likewise trypush answered 1 exactly for the arguments its own CASes on high appended; so whoever loses a CAS is answered NULL, or 0 |
| RingAnswers.RunFailsForCause | include/fibconcurrent/lockfree_ring_buffer.h:85-120 | in every run a trypush or trypop fails only if during that call the buffer was full, or empty, or the slot in question was half-way through another operation, or another thread's CAS got in first |
| RingAnswers.RunSizeIsBracketed | include/fibconcurrent/lockfree_ring_buffer.h:65-74 | in every run size() answers at most the number of items in the buffer at its last read, and at least the number of those that were in it when the call began and still are |
| RingAnswers.SizeAlone | include/fibconcurrent/lockfree_ring_buffer.h:65-74 | run alone, size() is exact and changes nothing |
| RingAnswers.RunReturns | include/fibconcurrent/lockfree_ring_buffer.h:65-121 | no operation waits: whatever the others do or leave undone it returns after at most five accesses of its own |
| RingBuffer.Ring.constructor | include/fibconcurrent/lockfree_ring_buffer.h:47-58 | an empty buffer: both counters 0, every slot NULL |
| RingBuffer.Ring.PushAccess | include/fibconcurrent/lockfree_ring_buffer.h:76-93 | one access of trypush in place is the model's step, and nothing else changes |
| RingBuffer.Ring.PopAccess | include/fibconcurrent/lockfree_ring_buffer.h:104-121 | one access of trypop in place is the model's step |
| RingBuffer.Ring.SizeAccess | include/fibconcurrent/lockfree_ring_buffer.h:65-74 | one access of size() in place is the model's step |
| RingBuffer.Ring.Interleave | include/fibconcurrent/lockfree_ring_buffer.h:65-121 | any interleaving of accesses performed in place is a run of the model and keeps the invariant |
| StealBuffer.RunAccounts | include/fibconcurrent/fifo_steal_buffer.h:77-132 | in every run indices are handed out in order, each at most once, with the value pushed there; between the master's operations low <= high <= low + size and the pushed indices are the disjoint union of returned, discarded and live |
| StealBuffer.StealTakesFreshIndex | include/fibconcurrent/fifo_steal_buffer.h:117-132 | no ABA: the index a thief's CAS wins was never handed out before and its value is the first of the queue, never an overwritten slot; a failed CAS lost its index to another taker |
| StealBuffer.DiscardsOnlyItsOwn | include/fibconcurrent/fifo_steal_buffer.h:98-105 | a claim is given up exactly when the master's own fetch-add returns high, and it is index high - 1 |
| StealBuffer.PopReturnsItsClaim | include/fibconcurrent/fifo_steal_buffer.h:106-108 | a pop that returns a value returns the one pushed at the index its fetch-add claimed |
| StealBuffer.StealEmptyIsExact | include/fibconcurrent/fifo_steal_buffer.h:120-131 | with a current reading of high, steal answers EMPTY exactly when nothing is live |
| StealBuffer.PushAlone | include/fibconcurrent/fifo_steal_buffer.h:77-89 | the master's push, with no thief moving, succeeds exactly when not full, and appends |
| StealBuffer.PopAlone | include/fibconcurrent/fifo_steal_buffer.h:92-111 | the master's pop, with no thief moving, returns the first item if and only if at least two are queued; a lone item is removed and discarded |
| StealBuffer.LoneItemIsLost | include/fibconcurrent/fifo_steal_buffer.h:92-111 | a concrete run: push one item, pop, and it is gone without being returned |
| StealBuffer.NextInv | include/fibconcurrent/fifo_steal_buffer.h:77-132 | every step of the master and of every thief keeps the accounting invariant |
| StealAnswers.RunAnswers | include/fibconcurrent/fifo_steal_buffer.h:77-132 | in every run each thief, and the master, has been given exactly the items pushed at the indices it claimed for good, in order, but for one the master has still to read; push answered success exactly for what was published |
| StealAnswers.RunFailsForCause | include/fibconcurrent/fifo_steal_buffer.h:117-132 | in every run a steal answers ABORT only if another taker moved low during the call, and EMPTY only if that happened or nothing was live at some moment of the call |
| StealAnswers.RunMasterFailsForCause | include/fibconcurrent/fifo_steal_buffer.h:77-111 | in every run a push is refused only if the buffer was full, and a pop returns nothing only if at most one item was live, at some moment of that call |
| StealAnswers.StealAlone | include/fibconcurrent/fifo_steal_buffer.h:117-132 | a steal without interference takes the first live item, EMPTY exactly when there is none, whatever the master is in the middle of |
| StealAnswers.RunReturns | include/fibconcurrent/fifo_steal_buffer.h:77-132 | no operation waits: it returns after at most four accesses of its own |
| StealBuffer.Buffer.constructor | include/fibconcurrent/fifo_steal_buffer.h:47-69 | an empty buffer over memory of unknown contents |
| StealBuffer.Buffer.MasterAccess | include/fibconcurrent/fifo_steal_buffer.h:77-111 | one access of the master's push or pop in place is the model's step |
| StealBuffer.Buffer.ThiefAccess | include/fibconcurrent/fifo_steal_buffer.h:117-132 | one access of a steal in place is the model's step |
| StealBuffer.Buffer.Interleave | include/fibconcurrent/fifo_steal_buffer.h:77-132 | any interleaving performed in place is a run of the model and keeps the invariant |
| CircularArray.CopiedReadsTheSame | src/work_stealing_deque.c:52-54 | after the copy loop every index of start..end reads the same in the new array, whatever the new memory held |
| CircularArray.Circular.At | include/fibconcurrent/work_stealing_deque.h:77-82 | reads the masked slot |
| CircularArray.Circular.Store | include/fibconcurrent/work_stealing_deque.h:84-89 | writes the masked slot and no other |
| CircularArray.Circular.Grow | src/work_stealing_deque.c:42-56 | the new array is twice as long and reads the same on start..end; the old array is not modified |
| AtomicDeque.ReplayConserves | src/work_stealing_deque.c:108-190 | in any history of an atomic deque (push appends, pop removes the last, steal the first) each pushed item is taken once or still there |
| Deque.RunIsAtomicDeque | src/work_stealing_deque.c:108-190 | in every run of an owner and any number of thieves the completed operations are a history of one atomic deque whose contents are what is left; pushed equals taken plus live; the live count never exceeds size - 1 |
| Deque.PushRefines | src/work_stealing_deque.c:108-148 | of a push's steps, growing or not, only the store to bottom changes the deque; it appends |
| Deque.PopGetRefines | src/work_stealing_deque.c:162-165 | with more than one item the pop returns and removes the last one |
| Deque.PopCasRefines | src/work_stealing_deque.c:166-172 | the owner's CAS on the last item gets it, or a thief already has; either way the deque is empty afterwards |
| Deque.PopQuietRefines | src/work_stealing_deque.c:152-161 | every other step of a pop leaves the deque and its history alone |
| Deque.PopEmptyIsExact | src/work_stealing_deque.c:156-161 | pop answers EMPTY exactly when the deque is empty as it reads top |
| Deque.StealRefines | src/work_stealing_deque.c:185-189 | a thief whose CAS succeeds removes the first item and returns it; otherwise nothing changes and it reports ABORT |
| Deque.StaleArrayReadsTheItem | src/work_stealing_deque.c:177-185 | whichever array the thief holds, current or replaced, index t reads the item last put at t as long as its CAS can succeed |
| Deque.StealEmptyIsExact | src/work_stealing_deque.c:177-184 | with a current reading of top, steal answers EMPTY exactly when the deque is empty or its only item is being popped; with no pop in flight, exactly when it is empty |
| Deque.StealEmptyIsJustified | src/work_stealing_deque.c:177-184 | even with a stale reading of top, steal answers EMPTY only on an empty deque or one whose only item is being popped |
| Deque.StealCanMissTheItem | src/work_stealing_deque.c:150-184 | from every state with one item and the owner at rest, a run in which steal answers EMPTY with the item still there |
| Deque.MissedItemFromStart | src/work_stealing_deque.c:108-184 | such a run from the initial state: push one item, start a pop, steal |
| Deque.LastItemRace | src/work_stealing_deque.c:167-188 | owner and thief both before the CAS on the same index: exactly the first to move gets the item, the other aborts |
| Deque.PopAlone | src/work_stealing_deque.c:150-173 | a pop without interference returns and removes the last item, EMPTY exactly when there is none |
| Deque.PushAlone | src/work_stealing_deque.c:108-148 | a push without interference is refused exactly when the array holds size - 1 items and may not grow; growing doubles the array and leaves the old ones as they were |
| Deque.NextInv | src/work_stealing_deque.c:108-190 | every step of the owner and of every thief keeps the invariant |
| DequeAnswers.RunAnswers | src/work_stealing_deque.c:108-190 | in every run each thief has been given exactly the items the history says it stole, in order, and the owner those it popped, but for one won and not yet returned; push answered success exactly for what was published |
| DequeAnswers.RunStealFailsForCause | src/work_stealing_deque.c:175-190 | in every run a steal answers ABORT only if somebody else moved top past the value it read, during the call, and EMPTY only if nothing was there at some moment of the call but possibly one item that a pop was after |
| DequeAnswers.RunOwnerFailsForCause | src/work_stealing_deque.c:108-173 | in every run a push is refused only if it may not grow and the array was full, a pop answers EMPTY only if the deque was empty, at some moment of the call, and ABORT only if a thief moved top during it |
| DequeAnswers.RaceIsAnswered | src/work_stealing_deque.c:166-172 | whatever the thieves do after the owner's CAS, the pop answers with the item if the CAS succeeded and ABORT if it failed |
| DequeAnswers.StealAlone | src/work_stealing_deque.c:175-190 | a steal without interference returns and removes the first item, EMPTY exactly when there is none but possibly one that a pop stopped in flight is after, never ABORT |
| DequeAnswers.RunReturns | src/work_stealing_deque.c:108-190 | no operation waits: a push returns after at most six accesses of its own, a pop after seven, a steal after five |
| Deque.WorkStealingDeque.constructor | src/work_stealing_deque.c:58-77 | an empty deque over an array of 2 to the log_size words, log_size at least 8 |
| Deque.WorkStealingDeque.PushAccess | src/work_stealing_deque.c:108-148 | one access of push_bottom or push_bottom_autogrow to top, bottom or underlying_array in place is the model's step; no array changes |
| Deque.WorkStealingDeque.PushArrayAccess | src/work_stealing_deque.c:112-143 | the size test with its growing branch, or the put, in place is the model's step |
| Deque.WorkStealingDeque.GrowUnderlying | src/work_stealing_deque.c:131-138 | the growing branch in place: a new array is filled and kept beside the old ones |
| Deque.WorkStealingDeque.PutItem | src/work_stealing_deque.c:143-143 | the put in place changes one slot of one array |
| Deque.WorkStealingDeque.PopAccess | src/work_stealing_deque.c:150-173 | one access of pop_bottom in place is the model's step |
| Deque.WorkStealingDeque.ThiefAccess | src/work_stealing_deque.c:175-190 | one access of steal in place is the model's step |
| Deque.WorkStealingDeque.Interleave | src/work_stealing_deque.c:108-190 | any interleaving performed in place is a run of the model and keeps the invariant |
| MpmcLifo.RunIsAtomicStack | include/fibconcurrent/mpmc_lifo.h:57-94 | in every run, with popped nodes overwritten and pushed again at once, the operations are a history of one atomic stack, pushed equals popped plus stacked, and the chain from head is acyclic and meets exactly its nodes |
| MpmcLifo.PushCasRefines | include/fibconcurrent/mpmc_lifo.h:64-72 | a push's CAS succeeds exactly when no operation completed since it read the counter, and then puts its node on top of the current stack; otherwise it starts over |
| MpmcLifo.PopCasRefines | include/fibconcurrent/mpmc_lifo.h:82-92 | a pop's CAS succeeds exactly when no operation completed since it read the counter; the head it read is then the current top and the next it read the node below |
| MpmcLifo.OtherStepsKeepTheStack | include/fibconcurrent/mpmc_lifo.h:57-94 | no other step changes the stack; pop answers NULL exactly when it is empty as head is read |
| MpmcLifo.WalkMeetsAll | include/fibconcurrent/mpmc_lifo.h:67-68 | following next from the top of a linked stack meets its nodes, top first, and ends at NULL |
| MpmcLifo.PopAlone | include/fibconcurrent/mpmc_lifo.h:76-94 | a pop without interference needs no retry and takes the top, or answers NULL on an empty stack |
| MpmcLifo.PushAlone | include/fibconcurrent/mpmc_lifo.h:57-74 | a push without interference needs no retry: four accesses and its node is on top |
| MpmcLifo.NextInv | include/fibconcurrent/mpmc_lifo.h:57-94 | every step of every thread, and every write of a caller to a node it owns, keeps the invariant |
| LifoAnswers.RunAnswers | include/fibconcurrent/mpmc_lifo.h:57-94 | in every run each thread's pops have returned exactly the nodes its own history entries took off, in order, and its pushes that have returned are exactly the nodes its own entries put on |
| LifoAnswers.PushEndsAsItPushes | include/fibconcurrent/mpmc_lifo.h:62-73 | a push of a node returns exactly at the step that puts the node on top of the stack and logs it |
| LifoAnswers.PopEndsAsItPops | include/fibconcurrent/mpmc_lifo.h:76-94 | a pop returns a node exactly as it takes it off the top, and NULL only as it sees the stack empty |
| LifoAnswers.RunReturns | include/fibconcurrent/mpmc_lifo.h:57-94 | lock freedom: unless another operation completes, an operation returns after at most seven accesses of its own, wherever the others were stopped |
| MpmcLifo.Lifo.constructor | include/fibconcurrent/mpmc_lifo.h:38-44 | an empty stack with counter 0 |
| MpmcLifo.Lifo.Access | include/fibconcurrent/mpmc_lifo.h:57-94 | one access of push or pop in place is the model's step |
| MpmcLifo.Lifo.Interleave | include/fibconcurrent/mpmc_lifo.h:57-94 | any interleaving performed in place is a run of the model and keeps the invariant |
| DistFifo.RunIsFifo | include/fibconcurrent/dist_fifo.h:92-132 | in every run, with popped nodes reused and overwritten at any time, the data popped by all threads is exactly a prefix of the data pushed, each item once |
| DistFifo.ProducerRefines | include/fibconcurrent/dist_fifo.h:92-102 | of a push's steps only the link changes the queue; it appends the node's data |
| DistFifo.PopCasRefines | include/fibconcurrent/dist_fifo.h:114-127 | the CAS succeeds exactly when head is unchanged since the counter was read, and takes the first item; RETRY means another pop completed |
| DistFifo.PopHandsOver | include/fibconcurrent/dist_fifo.h:128-129 | the node handed back is the caller's own and carries the data taken |
| DistFifo.EmptyIsExact | include/fibconcurrent/dist_fifo.h:114-131 | as long as the node looked at is the head, in particular while no pop has completed since the counter was read, EMPTY is answered exactly when the queue is empty; a wrong EMPTY always comes from a node that is the head no more |
| DistFifo.StaleEmptyIsArbitrary | include/fibconcurrent/dist_fifo.h:118-131 | once the node looked at is back with a caller, that caller's write makes trypop answer EMPTY whatever the queue holds |
| DistFifo.SpuriousEmpty | include/fibconcurrent/dist_fifo.h:107-132 | from any state with two queued items and two consumers starting a pop, a run in which one of them answers EMPTY although the queue still holds all but the first item |
| DistFifo.SpuriousEmptyFromStart | include/fibconcurrent/dist_fifo.h:92-132 | such a run from the initial state: push two nodes, start two pops, interleave them |
| DistFifo.PushAlone | include/fibconcurrent/dist_fifo.h:92-102 | a push without interference appends its node's data and changes nothing for the consumers |
| DistFifo.PopAlone | include/fibconcurrent/dist_fifo.h:107-132 | a pop without interference returns the old head carrying the first item, EMPTY exactly when there is none |
| DistFifo.NextInv | include/fibconcurrent/dist_fifo.h:92-132 | every step of the producer, of every consumer and of the callers keeps the invariant |
| DistAnswers.RunAnswers | include/fibconcurrent/dist_fifo.h:92-132 | in every run each consumer has been handed exactly the data its own CASes took, in order, in nodes of its own, but for one not yet written to its node; the data of the pushes that returned is exactly what was linked |
| DistAnswers.RunFailsForCause | include/fibconcurrent/dist_fifo.h:114-131 | in every run a pop answers RETRY only if another pop's CAS succeeded during the call, and EMPTY only if that happened or the queue was empty at some moment of the call |
| DistAnswers.RunReturns | include/fibconcurrent/dist_fifo.h:92-132 | no operation waits: a push returns after at most four accesses of its own and a pop after six |
| DistFifo.Fifo.constructor | include/fibconcurrent/dist_fifo.h:65-79 | an empty queue: head and tail are one terminated node, counter 0 |
| DistFifo.Fifo.ProducerAccess | include/fibconcurrent/dist_fifo.h:92-102 | one access of push in place is the model's step |
| DistFifo.Fifo.ConsumerAccess | include/fibconcurrent/dist_fifo.h:107-132 | one access of trypop in place is the model's step |
| DistFifo.Fifo.Interleave | include/fibconcurrent/dist_fifo.h:92-132 | any interleaving performed in place is a run of the model and keeps the invariant |
| MpscFifo.RunIsFifo | include/fibconcurrent/mpsc_fifo.h:69-110 | in every run, with any number of producers stopped between exchange and link, the data handed out is a prefix of the exchange order |
| MpscFifo.ProducerRefines | include/fibconcurrent/mpsc_fifo.h:69-77 | of a push's steps only the exchange changes the queue; it appends the node's data |
| MpscFifo.ConsumerRefines | include/fibconcurrent/mpsc_fifo.h:97-110 | the queue loses its first item when head moves, and at no other step of the consumer |
| MpscFifo.PopHandsOver | include/fibconcurrent/mpsc_fifo.h:105-107 | that item is the one handed out, in the node that was the head before |
| MpscFifo.PopFailsForCause | include/fibconcurrent/mpsc_fifo.h:80-110 | trypop and peek fail exactly when the queue is empty or its next push is unlinked |
| MpscFifo.PeekSeesTheFirst | include/fibconcurrent/mpsc_fifo.h:80-94 | peek answers with the first item |
| MpscFifo.HandedNodeIsPrivate | include/fibconcurrent/mpsc_fifo.h:97-110 | in every run from its handing over until its new owner pushes it, a returned node is not in the chain and is no producer's node or pending prev_tail |
| MpscFifo.FreeNodeIsPrivate | include/fibconcurrent/mpsc_fifo.h:69-77 | in every state, a node that belongs to a caller is not in the chain and is no producer's node or pending prev_tail |
| MpscFifo.FreeUntilPushed | include/fibconcurrent/mpsc_fifo.h:68-110 | only a push of the node itself takes it away from its owner |
| MpscFifo.NextInv | include/fibconcurrent/mpsc_fifo.h:69-110 | every step of every producer, of the consumer and of the callers keeps the invariant |
| MpscAnswers.RunAnswers | include/fibconcurrent/mpsc_fifo.h:69-110 | in every run the consumer has been handed exactly the data the moves of head took off the queue, in order, but for one it is copying; each producer's returned pushes are exactly the data its own exchanges put in, but for one it has still to link |
| MpscAnswers.RunAnswersForCause | include/fibconcurrent/mpsc_fifo.h:80-110 | in every run trypop and peek fail, at the step at which they return, only on an empty queue or one whose next push is unlinked, and peek answers with the item that is then the first |
| MpscAnswers.PopAlone | include/fibconcurrent/mpsc_fifo.h:97-110 | a trypop without interference hands over the first item in the node that was the head, and fails exactly when the consumer can reach none |
| MpscAnswers.PeekAlone | include/fibconcurrent/mpsc_fifo.h:80-95 | a peek without interference answers with the first item if the consumer can reach it, and leaves the queue alone |
| MpscAnswers.PushAlone | include/fibconcurrent/mpsc_fifo.h:69-77 | a push without interference appends its node's data and makes its link |
| MpscAnswers.RunReturns | include/fibconcurrent/mpsc_fifo.h:69-110 | no operation waits: a push returns after at most three accesses of its own, a trypop after five, a peek after three |
| MpscFifo.Fifo.constructor | include/fibconcurrent/mpsc_fifo.h:46-55 | an empty queue: head and tail are one terminated node |
| MpscFifo.Fifo.ProducerAccess | include/fibconcurrent/mpsc_fifo.h:69-77 | one access of push in place is the model's step |
| MpscFifo.Fifo.ConsumerAccess | include/fibconcurrent/mpsc_fifo.h:80-110 | one access of peek or trypop in place is the model's step |
| MpscFifo.Fifo.Interleave | include/fibconcurrent/mpsc_fifo.h:69-110 | any interleaving performed in place is a run of the model and keeps the invariant |
| WorkQueue.RunHasOneWorker | src/work_queue.c:38-71 | in every run at most one thread works, no two are inside the single-consumer pop, some thread works whenever a counted push is undelivered, and items are delivered in order |
| WorkQueue.RunBalances | src/work_queue.c:38-71 | in every run in_count minus out_count is the number of counted pushes not handed out, corrected by what the worker still has to count or subtract; with no worker both are 0 |
| WorkQueue.FirstPushIsElected | src/work_queue.c:44-48 | a push is told to start working exactly when nobody is the worker |
| WorkQueue.EmptyMeansAllDelivered | src/work_queue.c:58-66 | at the subtraction EMPTY is returned exactly when every counted push has been delivered; otherwise the thread stays the worker |
| WorkQueue.NextInv | src/work_queue.c:38-71 | every step keeps the election and counting invariant |
| WorkQueueAnswers.RunAnswers | src/work_queue.c:38-71 | in every run the nodes handed out carry, in order, the items pushed first; each thread's get_work calls have answered exactly the nodes handed to it, in order, but for one being counted out; START_WORKING was answered exactly as often as the thread was elected, but for a push under way; and a push returns once its node is in |
| WorkQueueAnswers.RunEmptyIsJustified | src/work_queue.c:57-70 | in every run EMPTY is answered only when every counted push has been delivered, and its receiver is then the worker no more |
| WorkQueueAnswers.GetWorkAlone | src/work_queue.c:53-71 | with an item the worker can reach, a get_work without interference answers MORE_WORK with the node carrying the first item |
| WorkQueueAnswers.GetEmptyAlone | src/work_queue.c:57-66 | with everything counted delivered, a get_work without interference answers EMPTY |
| WorkQueueAnswers.PushAlone | src/work_queue.c:38-51 | a push without interference queues its node's data and is told to start working exactly when nobody works |
| WorkQueue.Queue.constructor | src/work_queue.c:20-29 | both counts 0 over an empty FIFO |
| WorkQueue.Queue.PushAccess | src/work_queue.c:38-51 | one access of push in place, the FIFO's own accesses included, is the model's step |
| WorkQueue.Queue.GetAccess | src/work_queue.c:53-71 | one access of get_work in place is the model's step |
| WorkQueue.Queue.Interleave | src/work_queue.c:38-71 | any interleaving performed in place is a run of the model and keeps the invariant |
| HazardProtocol.RunProtects | src/hazard_pointer.c:128-184 | in every run, with records joining and any number of scans reading slots one at a time, no node confirmed in a slot not overwritten since has been reclaimed |
| HazardProtocol.ConfirmedUntilOverwritten | include/fibconcurrent/hazard_pointer.h:82-95 | once a node was stored in a slot and seen not retired, no step of any thread reclaims it until its thread overwrites or clears that slot |
| HazardProtocol.ReclaimIsJustified | src/hazard_pointer.c:169-183 | gc_function is called only by a scan of the thread that retired the node, never on a confirmed node, and once per retirement |
| HazardProtocol.RetiredNodesAreKept | include/fibconcurrent/hazard_pointer.h:100-109 | a retired node stays on its thread's list, exactly once, until it is reclaimed |
| HazardProtocol.NextInv | src/hazard_pointer.c:128-184 | every action of every thread keeps the protocol's invariant |
| HazardProtocol.Domain.Using | include/fibconcurrent/hazard_pointer.h:83-95 | using and done_using overwrite one slot of the thread's record and touch no other, and what the slot protected before it protects no more |
| HazardProtocol.Domain.Free | include/fibconcurrent/hazard_pointer.h:102-105 | the node becomes the first of the thread's retired list and belongs to that thread's next scan |
| HazardProtocol.Domain.ScanAccess | src/hazard_pointer.c:145-183 | one access of a scan in place, a slot read, a move to the next record or one retired node decided, is the protocol's step |
| HazardRecords.RunKeepsThresholds | src/hazard_pointer.c:40-62 | in every run of joining threads the head's threshold is 2*N*K, any other record's is 2*K times its suffix plus the later joiners that have updated it, and all are 2*N*K once the joins finish |
| HazardRecords.WalkFitsThreshold | src/hazard_pointer.c:136-161 | whatever joins between reading head and its threshold, half the threshold is room for every slot of every record the walk visits |
| HazardRecords.PassedBound | src/hazard_pointer.c:57-62 | at most the later joiners have updated a record, and all of them once they are through the list |
| HazardRecords.RunJoinsAreReal | src/hazard_pointer.c:40-64 | in every run a join returns only with a record of its own in the list, having been through every older record |
| HazardRecords.JoinAlone | src/hazard_pointer.c:40-64 | a join without interference puts one record at the head with 2*N*K of the longer list and raises every other by 2*K |
| HazardRecords.NextInv | src/hazard_pointer.c:24-65 | every step of every joining thread keeps the threshold invariant |
| HazardRecords.RecordList.constructor | src/hazard_pointer.c:24-38 | an empty record list |
| HazardRecords.RecordList.JoinAccess | src/hazard_pointer.c:40-62 | one access of create_and_push in place is the model's step |
| HazardRecords.RecordList.Interleave | src/hazard_pointer.c:40-62 | any interleaving performed in place is a run of the model and keeps the invariant |
| HazardScan.BinarySearch | src/hazard_pointer.c:98-126 | on a sorted prefix answers true exactly when the needle is in it |
| HazardScan.SortFirst | src/hazard_pointer.c:163-163 | sorts the collected pointers in place: ordered, the same multiset, the rest of the array untouched |
| HazardScan.InsertSorted | src/hazard_pointer.c:88-96 | inserting by the comparison function keeps a sequence in ascending order |
| HazardScan.CollectsWhatWasRead | src/hazard_pointer.c:145-161 | the hazards collected are exactly the non-NULL values read from the slots |
| HazardScan.CollectedBound | src/hazard_pointer.c:145-161 | at most N*K hazards are collected |
| HazardScan.ScanPartitions | src/hazard_pointer.c:165-183 | the new retired list and the nodes handed to gc_function together are the old list, each node once |
| HazardScan.KeptMembers | src/hazard_pointer.c:172-177 | a node survives the scan exactly when it was retired and is among the hazards |
| HazardScan.KeptKeepsOrder | src/hazard_pointer.c:169-183 | the survivors are a subsequence of the old list |
| HazardScan.SurvivorsAreReversed | src/hazard_pointer.c:174-177 | two survivors of a scan stand in the new list in the opposite order of the old one |
| HazardScan.FreedIsUnprotected | src/hazard_pointer.c:169-183 | a node is handed to gc_function exactly when a scan runs, it is retired and no slot read held it |
| HazardScan.FreeStaysBelowThreshold | include/fibconcurrent/hazard_pointer.h:100-109 | with all joins finished a call leaves fewer than 2*N*K nodes retired, and a scan at the threshold keeps at most N*K and frees at least N*K |
| HazardScan.ScanFreesHalf | src/hazard_pointer.c:165-183 | of distinct retired nodes at most N*K survive a scan |
| HazardScan.Pigeonhole | src/hazard_pointer.c:172-177 | distinct nodes all found among the hazards are no more than the hazards |
| HazardScan.CallsConserve | include/fibconcurrent/hazard_pointer.h:100-109 | over any run of calls every node retired is still listed or was handed to gc_function, once |
| HazardScan.Record.Collect | src/hazard_pointer.c:145-161 | the walk fills the plist with the hazards read and never writes past it |
| HazardScan.Record.CollectRow | src/hazard_pointer.c:151-159 | one record's non-NULL slots are appended in order |
| HazardScan.Record.Reserve | src/hazard_pointer.c:138-143 | the plist has room for half the head's threshold; it is reallocated, to exactly that size, exactly when missing or too small |
| HazardScan.Record.Prepare | src/hazard_pointer.c:136-163 | the scan's first half leaves the hazards read in the plist, sorted, each as often as it was read |
| HazardScan.Record.Push | include/fibconcurrent/hazard_pointer.h:103-105 | the node becomes the first of the retired list and the count is the list's length |
| HazardScan.Record.Relink | src/hazard_pointer.c:165-183 | the retired list becomes the reversed subsequence of nodes found in the plist, the rest is handed to gc_function in order, and the count is the list's length |
| HazardScan.Record.Scan | src/hazard_pointer.c:128-184 | the whole scan: retired list, count and freed nodes in terms of the old list and the slot values read |
| HazardScan.Record.Free | include/fibconcurrent/hazard_pointer.h:100-109 | push, then scan exactly at the threshold; with all joins finished the count is below 2*N*K after every call |
| HazardRefinement.ScanMatches | src/hazard_pointer.c:128-184 | for every run from the start of a thread's scan to its end, with any other threads using, confirming, retiring, scanning, joining and reusing in between: with the values read, each at its own moment, one row of K for each record there at the start, the retired list and the nodes handed to gc_function, in order, are those HazardScan's scan computes |
| HazardRefinement.SweepMatches | src/hazard_pointer.c:169-183 | whatever others do meanwhile, the sweep of the old list relinks the hazardous nodes in reverse and hands the others to gc_function in order |
| HazardRefinement.CollectMatches | src/hazard_pointer.c:145-161 | from any point of a walk, whatever others do meanwhile, the rest of the scan ends as HazardScan's does on the values read |
| HazardRefinement.FreedNextIsReclaimed | src/hazard_pointer.c:178-181 | the nodes counted as handed over are exactly those the protocol reclaims at that access |
| HazardRefinement.ScanAloneMatches | src/hazard_pointer.c:128-184 | a scan nobody interferes with ends, having read the slots as they are, the newest record first |
| MpmcFifo.RunIsSafeFifo | include/fibconcurrent/mpmc_fifo.h:78-138 | in every run, with threads joining and reclaimed nodes overwritten and reused, the values popped in head-CAS order are a prefix of the values pushed in tail-CAS order, and no reclaimed node is ever dereferenced |
| MpmcFifo.DereferenceIsSafe | include/fibconcurrent/mpmc_fifo.h:94-129 | every access through a node the thread does not own reaches a node not reclaimed |
| MpmcFifo.PushRefines | include/fibconcurrent/mpmc_fifo.h:78-99 | of a push's steps only the successful CAS on tail changes the queue; it appends the node's value |
| MpmcFifo.PopCasRefines | include/fibconcurrent/mpmc_fifo.h:129-135 | a successful CAS on head takes the first value, the one read before it; a failed one changes nothing and starts over |
| MpmcFifo.PopKeepsQueue | include/fibconcurrent/mpmc_fifo.h:101-138 | every other step of a pop, the scan included, leaves the queue alone |
| MpmcFifo.PopReturnsWhatItTook | include/fibconcurrent/mpmc_fifo.h:131-137 | the value taken is the one returned, and the old head is retired by the thread that unlinked it |
| MpmcFifo.NullIsExact | include/fibconcurrent/mpmc_fifo.h:116-121 | trypop answers NULL exactly when the head it holds is current and the queue is empty or its first waiting push has not set prev |
| MpmcFifo.PopAlone | include/fibconcurrent/mpmc_fifo.h:101-138 | a pop without interference, whether it has to scan or not, returns and removes the first value, NULL when there is none or its push is unlinked, and clears the hazard slots it used; without a scan within eleven accesses |
| MpmcFifo.PushAlone | include/fibconcurrent/mpmc_fifo.h:78-99 | a push without interference needs no retry, appends, and clears its hazard slot |
| MpmcFifo.NextInv | include/fibconcurrent/mpmc_fifo.h:78-138 | every step of every thread and of the callers keeps the invariant |
| MpmcAnswers.RunAnswers | include/fibconcurrent/mpmc_fifo.h:78-138 | in every run, with scans in any of the calls, each thread's trypop has returned exactly the values its own CASes on head took, in order, but for one in hand on the way through release, retirement and scan; its returned pushes are exactly the values its own CASes on tail appended |
| MpmcAnswers.RunNullIsJustified | include/fibconcurrent/mpmc_fifo.h:116-121 | in every run trypop returns NULL only if, at some moment of that very call, the queue was empty or its first waiting push had not set prev |
| MpmcAnswers.RunFinishes | include/fibconcurrent/mpmc_fifo.h:78-138 | obstruction freedom: in whatever state a run has come to, an operation left alone returns, its scan included |
| MpmcFifo.Fifo.constructor | include/fibconcurrent/mpmc_fifo.h:52-63 | an empty queue: the caller's node is head and tail |
| MpmcFifo.Fifo.PushAccess | include/fibconcurrent/mpmc_fifo.h:78-99 | one access of push in place is the model's step |
| MpmcFifo.Fifo.LookAccess | include/fibconcurrent/mpmc_fifo.h:109-126 | one access of trypop up to its second check of head in place is the model's step |
| MpmcFifo.Fifo.TakeAccess | include/fibconcurrent/mpmc_fifo.h:129-130 | reading the value, or the CAS on head, in place is the model's step |
| MpmcFifo.Fifo.ReleaseAccess | include/fibconcurrent/mpmc_fifo.h:131-132 | done_using in place is the model's step: the slot is NULL and protects nothing any more |
| MpmcFifo.Fifo.RetireHead | include/fibconcurrent/mpmc_fifo.h:133-133 | retiring the unlinked node in place, and starting a scan when the threshold is reached, is the model's step |
| MpmcFifo.Fifo.Interleave | include/fibconcurrent/mpmc_fifo.h:78-138 | any interleaving of joins, pushes, pops and scans performed in place is a run of the model and keeps the invariant |

## Left out

- Weak memory, barriers, inline assembly, padding and alignment: sequential consistency is assumed.
- Counter wrap-around at 2^64.
- malloc, free, allocation failure and the destroy functions; replaced deque arrays stay allocated.
- A class holds the registers of all threads and its methods perform one access at a time; a schedule of method calls is an interleaving. Nodes of the linked containers are addresses into maps of their fields rather than objects, since stale and reused nodes must stay readable; only HazardScan links real objects.
- The records of HazardProtocol.Domain are rows of sequences the methods reassign, numbered in joining order, rather than linked record objects: the linking is HazardRecords.RecordList and a record's own list and scan are HazardScan.Record.
- The retry loops of lockfree_ring_buffer_push and lockfree_ring_buffer_pop: their runs are runs of trypush and trypop, which the model already allows in any order; that they end is not claimed.
- Fairness. The operations without a retry loop are proved to return within a fixed number of their own accesses, the stack to be lock free, the optimistic FIFO to be obstruction free; that some thread of the optimistic FIFO always gets through is not claimed.
- work_queue_get_work waits while a push that has been counted has not made its link; that it then ends is not claimed.
- HazardProtocol leaves open when a thread scans; the threshold that decides it is in HazardRecords and HazardScan.
- HazardScan.SortFirst: stands for the C library's qsort by its result, an ordered permutation, computed by insertion.
- HazardScan.Record.Scan: the slot values read are an argument, any values at all; HazardRefinement.ScanMatches shows that with the values a scan reads during any run this is what the protocol's scan does.
- gc_function callbacks that call back into the hazard pointer code, and what they do with the node; a reclaimed node goes back to a caller.
- The `next` field that mpmc_fifo_push writes and nothing reads.
- wsd_work_stealing_grow, a copy of the growing branch of push_bottom_autogrow, and the deque's size function.
- The sharded steal buffer, spsc_fifo.h, mpsc_relaxed_fifo.h, mpmc_stack.h, queuedef and mpmc_ring_queue_internal.h: easier variants or no operations.
- Tests, the test framework, the barrier shim and the build scripts.

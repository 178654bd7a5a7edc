# Dumbo fibers and reactors: a verified model

This project models the concurrent core of the dumbo runtime in Dafny and proves what its queues, locks and
fiber operations keep over every run.

Two granularities are used.

* **Lock-free structures** (`FutexLock`, `SpmcQueue`, `ChaseLev`, `RingChannel`, `SingleSlot`, `MpscList`,
  `Disruptor`, `InboxProgress`): any number of threads, one step for each atomic load, store, exchange, compare-and-swap or fetch-and-add, in
  sequentially consistent memory. Array cells are read and written in steps of their own where another thread
  can come between.
* **Fiber runtime** (`FiberMutex`, `Barrier`, `ChannelWakeups`, `Unbuffered`, `Scheduler`, `RunAt`, `CallReturns`):
  fibers of one scheduler run without interruption between suspension points, so a step is one such segment. In
  `RunAt` several reactors interleave, each with one active fiber; `CallReturns` says which of their calls return.

Every component is written twice, and the two are tied together.

* A **machine**: a `State` with the shared variables, the place of every thread and logs of what was pushed,
  popped or returned; a `Step` type; and a total `Apply`, under which a step that is not enabled changes
  nothing. `Runs.Exec(Apply, Init(..), run)` is the state after a run, and the theorems speak of every `run`,
  which is every interleaving of every length.
* A **class** in the form of the source: the source's fields, arrays and loops. A ghost run and its machine state
  travel with the object, and `Valid()` says that the fields are those of the state which that run reaches. Each
  method therefore refines the machine step by step, and states its result about the logs. Where other threads
  may act between two atomic accesses a method calls `Interfere`, whose contract allows any steps of the others.

Two modules hold what is shared: `Ring` proves that masking with a power of two, the remainder, and the
lap-by-lap recursion `Slot` agree, and `Counting` and `Lists` hold facts about queues.

## Results

* **Futex lock.** Mutual exclusion, and a lost wake-up is impossible: while anybody sleeps, the word is 2, or an
  unlocker or a contender will see to it. From every reachable state a sleeper can be led to the lock in seven steps.
* **Growing SPMC queue.** The k-th won swap of `top_` returned the k-th pushed context, also for a popper that holds
  an array since replaced.
* **Chase-Lev deque.** A push is returned at most once, and every push is in exactly one of three places: returned,
  in the deque, or lost. It is lost exactly when the push starts with `bottom_ < top_`, the state left behind by a pop
  that lost the race for the last element. `PushCanBeLost` is such a run, and each lost race costs exactly one push, the
  next one (`EachMissCostsOnePush`). `pop`
  answers null exactly when its deciding step finds the deque empty; `steal` when there was nothing to steal or another
  got the entry.
* **Buffered channel.** The ring refines a FIFO queue ordered by the index swaps, for capacities of at least 2. In the
  blocking operations no wake-up is lost. A successful `try_push` loses one exactly when consumers are queued and the
  stored items are all spoken for by consumers already woken, and a `try_pop` likewise (`StepLosesNothingIff`, and
  `NeverLostIff` for runs). A consumer can be left asleep with any capacity and two fibers or more (`ConsumerLosesIff`),
  a producer only with a capacity of at least 2 (`ProducerLosesIff`).
* **A channel of capacity 1.** The constructor accepts it, but a slot of such a ring looks the same published and free
  again. The window fails there (`WindowIff`); a push never finds the ring full, and a pop behind two pushes never ends
  (`SpinsIff`, `BoundedIff`). If a push overlaps a pop, the ring can look full and empty to everybody for ever
  (`OverlapKillsRing`). The blocking operations are modelled with this behaviour, so their results hold for capacity 1
  too, and `RingCarriesBuffer` ties them to the ring for every capacity.
* **Disruptor inbox.** For claims of any sizes, any producers and any consumers: claimed ranges partition the sequence
  numbers, a publish finds the cursor at the start of its own range, gated producers stay within one lap of the slowest
  consumer although the cached value may be stale, live numbers have different slots, and every consumer hands out a
  prefix of the claim-order log. A sender that would overrun a consumer waits for as long as no consumer runs; if
  only its own thread could consume, that is for ever (`FullInboxHoldsSender`). From every reachable state a sender can
  be led to its publication exactly when no claim up to its own is larger than the ring (`CanPublishIff`), so in the
  inbox always.
* **Intrusive MPSC queue.** Pops return contexts in exchange order, never the dummy; a returned node has no link write
  pending; null is returned only with an excuse, and without one a pop succeeds.
* **Unbuffered channel.** A push returns success exactly when its value was taken, by exactly one pop. `close` leaves the
  producer whose value is in the slot asleep, and nobody else; with two fibers or more there is such a run.
* **Mutexes and barrier.** Hand-off in arrival order; the count is the owner's unmatched acquisitions; the answer of
  `try_lock` is what was true before its yield, and acquisitions are counted by the answers that calls give. The barrier's one bit stands for an unbounded generation number exactly
  when no more than `initial` fibers use the barrier, or `initial` is 1 and nobody waits at all (`CycleTellsIff`). For any
  number of fibers it tells the parity of the generations passed, so nobody leaves early (`CycleTellsParity`).
* **Scheduler.** The dispatcher is never lost, so `get_next_` always finds a context; queues stay disjoint and sorted; a
  worker is destroyed at most once, exactly when terminated, swept and let go; the dispatcher leaves its loop only when
  nothing is left; a context ready behind k others runs by the (k+1)-th pick; and a sleeper whose deadline has come is
  ready within a bound given by the dispatcher's place in the ready queue, and not before (`WokenWithinBound`,
  `SleepsAtLeast`, both from the argument of `wait_until`).
* **run_at.** A message is in exactly one place, is processed and finished at most once, and its caller is always linked
  when the reply arrives; the call returns what the processing ended with. That every call returns is false: an event
  loop ends only without unfinished calls of its own, but a call sent to a reactor that has ended is stranded. From every
  reachable state a call can be led to its return exactly when the chain of calls nested in it does not end with such a
  stranded message (`CanReturnIff`); only calls to reactors that were told to stop are ever stranded, and with another
  reactor beside it each of those can strand one (`StrandsIff`).

## Model

| member | source | states |
|---|---|---|
| `FutexLock.AlwaysInv` | include/dumbo/v1/fiber/detail/spinlock_ttas_futex.hpp:39-99 | On every run: one owner at most (holder, or unlocker between the decrement and the store of 0); the word is non-zero exactly while owned; a sleeper comes with value 2, a pending wake or a contender about to exchange |
| `FutexLock.NobodyLeftAsleep` | include/dumbo/v1/fiber/detail/spinlock_ttas_futex.hpp:85-99 | When every other thread has left the lock nobody sleeps and the word is 0 |
| `FutexLock.SleeperCanAcquire` | include/dumbo/v1/fiber/detail/spinlock_ttas_futex.hpp:85-99 | From every reachable state a sleeping thread can be led to the lock within 7 steps, without new callers or spurious wake-ups, despite barging |
| `FutexLock.SpinlockTtasFutex.Lock` | include/dumbo/v1/fiber/detail/spinlock_ttas_futex.hpp:39-92 | Spin phase with both limits, then exchange and wait; returns owning a non-zero word, or still in the wait loop when the followed rounds ran out |
| `FutexLock.SpinlockTtasFutex.Unlock` | include/dumbo/v1/fiber/detail/spinlock_ttas_futex.hpp:94-99 | The two-step unlock follows the machine and leaves the caller idle |
| `SpmcQueue.PopsAreFifo` | include/dumbo/v1/fiber/detail/context_spmc_queue.hpp:118-153 | The values won so far are the first top_ pushes, in order, and the rest still sit in the current array |
| `SpmcQueue.OutgrownArrayStaysGood` | include/dumbo/v1/fiber/detail/context_spmc_queue.hpp:81-87 | A popper's array, even if since replaced, still holds the entry at its index while top_ has not moved |
| `SpmcQueue.PopAnswers` | include/dumbo/v1/fiber/detail/context_spmc_queue.hpp:135-153 | Empty is concluded only when empty; a failed swap means another pop has taken that entry; an unmoved top_ means the value read is the right one |
| `SpmcQueue.ContextSpmcQueue.Resize` | include/dumbo/v1/fiber/detail/context_spmc_queue.hpp:81-87 | The loop builds the copy of twice the size that holds the entries from top to bottom |
| `SpmcQueue.ContextSpmcQueue.Push` | include/dumbo/v1/fiber/detail/context_spmc_queue.hpp:118-133 | Exactly the given context is appended to the push log, whatever the poppers do meanwhile; old arrays are kept |
| `SpmcQueue.ContextSpmcQueue.Pop` | include/dumbo/v1/fiber/detail/context_spmc_queue.hpp:135-153 | A context returned is the push numbered by the top_ it won during the call, and not a pinned one; null means that the queue was empty at some instant, another pop took an entry meanwhile, or the front context is pinned |
| `ChaseLev.ReturnedAtMostOnce` | include/dumbo/v1/fiber/algo/detail/chase_lev_queue.hpp:113-167 | Every entry returned is a push of its own, with that push's context, across grows and last-element races |
| `ChaseLev.EveryPushAccountedFor` | include/dumbo/v1/fiber/algo/detail/chase_lev_queue.hpp:113-167 | Each push is in exactly one place: returned, lost, or at its index between top_ and bottom_ |
| `ChaseLev.LosesExactlyBelowTop` | include/dumbo/v1/fiber/algo/detail/chase_lev_queue.hpp:113-125 | A push loses its entry if and only if it started with bottom_ below top_ |
| `ChaseLev.EachMissCostsOnePush` | include/dumbo/v1/fiber/algo/detail/chase_lev_queue.hpp:113-150 | As many pushes are lost as last-element races, less one while the last race has not been paid for, that is while bottom_ is below top_ |
| `ChaseLev.NoMissNoLoss` | include/dumbo/v1/fiber/algo/detail/chase_lev_queue.hpp:138-142 | In particular, without a pop that lost the last-element race nothing is lost |
| `ChaseLev.PushCanBeLost` | include/dumbo/v1/fiber/algo/detail/chase_lev_queue.hpp:138-142 | A run in which a push is lost after such a race |
| `ChaseLev.EveryStepRefines` | include/dumbo/v1/fiber/algo/detail/chase_lev_queue.hpp:113-167 | Every step is a step of a sequential deque: push at the back, pop from the back, steal from the front, or nothing |
| `ChaseLev.PopAnswers` | include/dumbo/v1/fiber/algo/detail/chase_lev_queue.hpp:127-150 | The look at top_ finds the deque empty exactly when it is; the race for the last entry is lost exactly when the deque has become empty, that entry having been taken |
| `ChaseLev.StealAnswers` | include/dumbo/v1/fiber/algo/detail/chase_lev_queue.hpp:152-167 | A thief gives up on the indices only when the deque is empty or its only entry is being popped by the owner; its swap fails only after top_ has moved past its index |
| `ChaseLev.ChaseLevQueue.Grow` | include/dumbo/v1/fiber/algo/detail/chase_lev_queue.hpp:71-80 | The copy loop builds the buffer of twice the size with the entries from top to bottom |
| `ChaseLev.ChaseLevQueue.Push` | include/dumbo/v1/fiber/algo/detail/chase_lev_queue.hpp:113-125 | Appends exactly this context to the push log; it is lost if and only if bottom was below top at the call |
| `ChaseLev.ChaseLevQueue.Pop` | include/dumbo/v1/fiber/algo/detail/chase_lev_queue.hpp:127-150 | Returns the context of a push that nobody had been given before, or null, and then the deque is empty |
| `ChaseLev.ChaseLevQueue.Steal` | include/dumbo/v1/fiber/algo/detail/chase_lev_queue.hpp:152-167 | The same for a thief; null means that at some instant there was nothing to steal, or that another took an entry meanwhile |
| `MpscList.PopsInExchangeOrder` | include/dumbo/v1/fiber/detail/context_mpsc_queue.hpp:56-89 | Popped contexts are the front part of the exchange order, each once, never the dummy, which is in the list at most once; the rest is still in the list |
| `MpscList.NullHasExcuse` | include/dumbo/v1/fiber/detail/context_mpsc_queue.hpp:63-89 | A null answer implies that at some instant of that pop the queue was empty or a push was between its exchange and its link |
| `MpscList.QuietPopSucceeds` | include/dumbo/v1/fiber/detail/context_mpsc_queue.hpp:63-89 | The converse: from every reachable state without such an excuse a single pop left alone returns the first context, and only that one |
| `MpscList.ReturnedNodeIsFree` | include/dumbo/v1/fiber/detail/context_mpsc_queue.hpp:74-87 | A returned node is out of the list and no push still has to write its link |
| `MpscList.ContextMpscQueue.Push` | include/dumbo/v1/fiber/detail/context_mpsc_queue.hpp:56-61 | The context takes a position in exchange order during the call |
| `MpscList.ContextMpscQueue.Pop` | include/dumbo/v1/fiber/detail/context_mpsc_queue.hpp:63-89 | Returns the next context of the order, or null with its excuse; the dummy is re-inserted through the same push |
| `RingChannel.EveryStepRefines` | include/dumbo/v1/fiber/buffered_channel.hpp:76-129 | Every step is a step of a FIFO queue that changes only at the index swaps; the finished pop of a ticket hands out that ticket's value |
| `RingChannel.TicketsAreExclusive` | include/dumbo/v1/fiber/buffered_channel.hpp:76-129 | Producers hold different tickets, so do consumers, no producer and consumer work on one slot, and the indices stay within the capacity |
| `RingChannel.PopGetsItsTicket` | include/dumbo/v1/fiber/buffered_channel.hpp:98-129 | The value handed out under ticket i is the one pushed under ticket i |
| `RingChannel.PushVerdict` | include/dumbo/v1/fiber/buffered_channel.hpp:80-92 | A positive difference means a stale index; the answer full means a current index whose ticket one lap before is unreleased |
| `RingChannel.PopVerdict` | include/dumbo/v1/fiber/buffered_channel.hpp:99-114 | The same for consumers: empty means a current index whose ticket is not yet published |
| `RingChannel.QuietStatus` | include/dumbo/v1/fiber/buffered_channel.hpp:66-74 | With no operation in flight is_full_ and is_empty_ hold exactly when the indices differ by the capacity and by zero |
| `RingChannel.WindowIff` | include/dumbo/v1/fiber/buffered_channel.hpp:132-142 | The window consumer <= producer <= consumer + capacity holds on all runs if and only if the capacity is at least 2 |
| `RingChannel.CapacityOneOverflows` | include/dumbo/v1/fiber/buffered_channel.hpp:132-142 | A run of capacity 1, for any two values, in which both pushes succeed with nothing popped and the only slot holds the second value |
| `RingChannel.BufferedChannel.Create` | include/dumbo/v1/fiber/buffered_channel.hpp:132-142 | The bit test accepts exactly the positive powers of two |
| `RingChannel.BufferedChannel.TryPush` | include/dumbo/v1/fiber/buffered_channel.hpp:76-96 | A success logs the value under a ticket claimed during this call; full means that at some instant of the call the ticket one lap before was unreleased |
| `RingChannel.BufferedChannel.TryPop` | include/dumbo/v1/fiber/buffered_channel.hpp:98-129 | A success returns the value pushed under the ticket that this call claimed, never handed out before; empty means that at some instant of the call the next ticket was unpublished |
| `SingleSlot.NeverFull` | include/dumbo/v1/fiber/buffered_channel.hpp:66-74 | With capacity 1 and operations that do not overlap is_full_ is never true, and is_empty_ exactly when nothing waits |
| `SingleSlot.Push` | include/dumbo/v1/fiber/buffered_channel.hpp:76-96 | So there an undisturbed push always succeeds, over whatever is stored |
| `SingleSlot.Pop` | include/dumbo/v1/fiber/buffered_channel.hpp:98-129 | An undisturbed pop answers empty, takes the only value, or, behind two pushes or more, enters a loop |
| `SingleSlot.SpinsForever` | include/dumbo/v1/fiber/buffered_channel.hpp:98-119 | That loop does not end while no other thread runs |
| `SingleSlot.OverlapKillsRing` | include/dumbo/v1/fiber/buffered_channel.hpp:76-129 | For two threads or more, a run of capacity 1 in which a push overlaps a pop, after which every continuation finds the ring full and empty, with the second value never handed out |
| `Ring.Mask` | include/dumbo/v1/disruptor/ring_buffer.h:55-70 | Masking with a power of two less one is the lap recursion that the proofs use |
| `Disruptor.HandedInClaimOrder` | include/dumbo/v1/reactor/mpsc_queue.hpp:54-113 | What each consumer handed out is exactly a prefix of the claim-order log, whatever the batch sizes |
| `Disruptor.LogIsTheClaims` | include/dumbo/v1/disruptor/sequencer.h:90-93 | The log is the concatenation of the ranges claimed in the run, with the values they were claimed for |
| `Disruptor.ClaimsPartition` | include/dumbo/v1/disruptor/claim_strategy.h:125-168 | Claimed ranges partition the unpublished numbers; a publish finds the cursor at sequence - delta and moves it to sequence |
| `Disruptor.SomeoneIsNext` | include/dumbo/v1/disruptor/sequencer.h:97-102 | The next unpublished number always belongs to a producer in flight whose range starts there |
| `Disruptor.NoEarlyRewrite` | include/dumbo/v1/disruptor/claim_strategy.h:125-140 | A gated claim is at most one lap ahead of every consumer though the cached value may be stale, and writes no slot that a consumer has not finished |
| `Disruptor.LiveSlotsAreDistinct` | include/dumbo/v1/disruptor/ring_buffer.h:55-70 | Any two live sequence numbers, each being written by a gated producer or not yet finished by some consumer, have different indices under the mask |
| `Disruptor.FullInboxHoldsSender` | include/dumbo/v1/disruptor/claim_strategy.h:125-140 | A producer whose number overruns a consumer stays in the waiting loop, whatever the other producers do, for as long as no consumer takes a step |
| `Disruptor.CurrentEventSlot` | include/dumbo/v1/disruptor/event_processor.h:60-71 | get_current_event reads the slot of twice the next number, which is the slot of the next number if and only if that is a multiple of the size |
| `Disruptor.CurrentEventIsNext` | include/dumbo/v1/reactor/mpsc_queue.hpp:63-74 | With an event at hand and such a number the element read is the next one of the log |
| `Disruptor.CurrentEventIsAnother` | include/dumbo/v1/reactor/mpsc_queue.hpp:63-74 | For every size of at least 2, a run in which the element read is another: the first one again, or a slot never written |
| `Disruptor.CurrentEventIff` | include/dumbo/v1/reactor/mpsc_queue.hpp:63-74 | The element read is the next one on all runs if and only if the inbox has one slot |
| `InboxProgress.SenderCanPublish` | include/dumbo/v1/disruptor/claim_strategy.h:125-168 | From every reachable state a sender is led to its publication by the consumers and the producers in front of it, without a new claim, if the claims under way up to its own fit the ring |
| `InboxProgress.OversizedNeverPublishes` | include/dumbo/v1/disruptor/claim_strategy.h:125-140 | A claim larger than the ring is never published, nor any number behind it |
| `InboxProgress.CanPublishIff` | include/dumbo/v1/disruptor/claim_strategy.h:125-168 | So a sender can publish if and only if no claim under way up to its own is larger than the ring |
| `InboxProgress.InboxSenderCanPublish` | include/dumbo/v1/reactor/mpsc_queue.hpp:54-61 | With claims of one number, as the inbox makes them, every sender can |
| `Disruptor.MpscQueue.Send` | include/dumbo/v1/reactor/mpsc_queue.hpp:54-61 | The value enters the log at a number claimed by this call |
| `Disruptor.MpscQueue.AwaitConsumer` | include/dumbo/v1/disruptor/claim_strategy.h:125-140 | It passes only when the number is at most one lap ahead of the consumer's sequence; no slot is written before |
| `Disruptor.MpscQueue.HasAvailableCapacity` | include/dumbo/v1/disruptor/claim_strategy.h:142-158 | A positive answer means that the next number does not overrun the consumer, a negative one that at some instant of the call the next number did; the cached value is afterwards the one that decided, and behind the consumer |
| `Disruptor.MpscQueue.PublishEvent` | include/dumbo/v1/disruptor/claim_strategy.h:160-168 | Published means that its turn has come and the cursor stands at exactly this number |
| `Disruptor.MpscQueue.BeginBatch` | include/dumbo/v1/disruptor/event_processor.h:84-97 | The batch begins behind the consumer's sequence and reaches to the cursor; 0 means that the cursor has nothing new |
| `Disruptor.MpscQueue.HasEvents` | include/dumbo/v1/disruptor/event_processor.h:74-97 | Inside a batch, what is left of it; else the batch begun at this instant, up to the cursor |
| `Disruptor.MpscQueue.CommitBatch` | include/dumbo/v1/disruptor/event_processor.h:99-111 | The next number moves by the length; the consumer's sequence moves if and only if the batch is consumed, and then to the last number handed out |
| `Disruptor.MpscQueue.Get` | include/dumbo/v1/reactor/mpsc_queue.hpp:77-95 | Hands out the next values of the log: inside a batch the minimum of its rest and the request; otherwise fewer than asked for only when everything published at the call has been handed out |
| `Disruptor.MpscQueue.GetAll` | include/dumbo/v1/reactor/mpsc_queue.hpp:97-113 | Hands out the next values of the log: the whole rest of the batch, or everything published at the call |
| `FiberMutex.HandedOverInArrivalOrder` | src/fiber/mutex.cpp:24-79 | Waiters receive the lock in the order they queued, each once; a wait queue implies an owner outside it |
| `FiberMutex.CountIsUnmatchedAcquisitions` | src/fiber/recursive_mutex.cpp:23-80 | Counting in the run the lock and try_lock calls that succeed, the hand-overs and the unlocks: the owner is exactly the fiber with unmatched acquisitions, and the count is their number |
| `FiberMutex.TryLockAnswerSurvivesYield` | src/fiber/mutex.cpp:44-59 | What try_lock answers after its yield is whether it held the lock before the yield |
| `FiberMutex.UnlockHandsToFront` | src/fiber/recursive_mutex.cpp:59-80 | The last unlock leaves the lock with the longest waiter, made ready, or free |
| `FiberMutex.Mutex.Lock` | src/fiber/mutex.cpp:24-42 | Deadlock error for the owner, acquisition when free, else queued at the back and suspended |
| `FiberMutex.Mutex.Unlock` | src/fiber/mutex.cpp:61-79 | Error without ownership, else hand-off to the front waiter or release |
| `FiberMutex.Mutex.TryLockReturn` | src/fiber/mutex.cpp:55-59 | The answer is what was held before the yield |
| `FiberMutex.RecursiveMutex.Lock` | src/fiber/recursive_mutex.cpp:23-41 | The count is 1 on a free lock, one more for the owner; else queued, with owner and count as they were |
| `FiberMutex.RecursiveMutex.TryLock` | src/fiber/recursive_mutex.cpp:43-57 | Up to the yield: the count is 1 on a free lock, one more for the owner, and all is unchanged on a taken one; the answer after the yield is kept |
| `FiberMutex.RecursiveMutex.Unlock` | src/fiber/recursive_mutex.cpp:59-80 | Error without ownership; else the count is one less, and the last unlock hands over with count 1 or frees |
| `Barrier.CycleTellsGeneration` | src/fiber/barrier.cpp:31-45 | A waiting call is at most one generation behind, and its remembered bit differs from the current one exactly when its generation is complete |
| `Barrier.OpensAfterAllArrivals` | src/fiber/barrier.cpp:31-45 | A generation is completed only by its last arrival, with all others parked in it |
| `Barrier.EachGenerationIsLeftByAll` | src/fiber/barrier.cpp:31-45 | One call per completed generation returns true; the other initial - 1 return false once each |
| `Barrier.CycleTellsIff` | src/fiber/barrier.cpp:31-45 | The remembered bit tells the generation on all runs if and only if there are at most initial fibers, or initial is 1 |
| `Barrier.SlowFiberMissesGeneration` | src/fiber/barrier.cpp:31-45 | For every larger number of fibers, a run in which two generations are complete while a waiter of the first has not left, and the bit is the one it remembers |
| `Barrier.CycleTellsParity` | src/fiber/barrier.cpp:31-45 | For any number of fibers: the bit differs from the remembered one exactly when an odd number of generations has been completed since |
| `Barrier.FiberBarrier.Create` | src/fiber/barrier.cpp:22-29 | A zero count is refused |
| `Barrier.FiberBarrier.Wait` | src/fiber/barrier.cpp:31-45 | True is returned exactly by the call that completes a generation; other calls park in the current one or queue for the mutex |
| `Barrier.FiberBarrier.WaitNotified` | include/dumbo/v1/fiber/condition_variable.hpp:65-98 | A notified waiter queues for the mutex, or leaves if the bit has changed and parks again if not; with at most initial fibers it never parks again |
| `Barrier.FiberBarrier.WaitRelocked` | include/dumbo/v1/fiber/condition_variable.hpp:84-98 | A waiter handed the mutex leaves if and only if the bit has changed, so always with at most initial fibers |
| `Barrier.FiberBarrier.NotifyAll` | src/fiber/condition_variable.cpp:32-42 | The loop empties the wait queue and readies everybody in order |
| `ChannelWakeups.NoLostWakeUp` | include/dumbo/v1/fiber/buffered_channel.hpp:198-232 | Over push, pop, value_pop and close: while a consumer is queued, stored items do not outnumber consumers woken and not yet back; likewise producers and free slots |
| `ChannelWakeups.EachTryCostsOneWakeUp` | include/dumbo/v1/fiber/buffered_channel.hpp:184-196 | With try_push and try_pop in the run, each success costs at most one wake-up |
| `ChannelWakeups.StepLosesNothingIff` | include/dumbo/v1/fiber/buffered_channel.hpp:184-196 | A step loses a wake-up if and only if it is a successful try_push with consumers queued and every stored item spoken for by a woken consumer, or the mirror image for try_pop |
| `ChannelWakeups.NeverLostIff` | include/dumbo/v1/fiber/buffered_channel.hpp:374-382 | A run keeps the accounts at every point if and only if no try in it is of that kind when taken |
| `ChannelWakeups.PoliteTriesLoseNothing` | include/dumbo/v1/fiber/buffered_channel.hpp:184-196 | No wake-up is lost when each successful try finds the other side's wait queue empty |
| `ChannelWakeups.TryPushLosesWakeUp` | include/dumbo/v1/fiber/buffered_channel.hpp:184-196 | For every capacity of at least 1 and two fibers or more, one try_push leaves a consumer asleep beside a stored item |
| `ChannelWakeups.TryPopLosesWakeUp` | include/dumbo/v1/fiber/buffered_channel.hpp:374-382 | For every capacity of at least 2 and two fibers or more, one try_pop leaves a producer asleep beside a free slot |
| `ChannelWakeups.ConsumerLosesIff` | include/dumbo/v1/fiber/buffered_channel.hpp:184-196 | Some run loses a consumer's wake-up if and only if the capacity is at least 1 and there are two fibers or more |
| `ChannelWakeups.ProducerLosesIff` | include/dumbo/v1/fiber/buffered_channel.hpp:374-382 | Some run loses a producer's wake-up if and only if the capacity is at least 2 and there are two fibers or more |
| `ChannelWakeups.BothSidesNeverAsleep` | include/dumbo/v1/fiber/buffered_channel.hpp:198-232 | Producers and consumers never sleep together with nobody woken |
| `ChannelWakeups.NobodyWaitsAfterClose` | include/dumbo/v1/fiber/buffered_channel.hpp:166-182 | After a close no fiber is or becomes queued, and nothing more is pushed |
| `ChannelWakeups.ClosedMeansDrained` | include/dumbo/v1/fiber/buffered_channel.hpp:384-415 | pop reports closed only when everything pushed has been popped in order, now and for ever |
| `ChannelWakeups.FirstInFirstOut` | include/dumbo/v1/fiber/buffered_channel.hpp:384-456 | What was pushed is what was popped followed by what has not come out; for capacities other than 1 that is never more than the capacity, and no operation spins |
| `ChannelWakeups.SuspendedKeepsValue` | include/dumbo/v1/fiber/buffered_channel.hpp:198-232 | A push that is suspended, woken and queued again, however often, still holds the value it was called with |
| `ChannelWakeups.EveryStepMovesItsValue` | include/dumbo/v1/fiber/buffered_channel.hpp:198-232 | What goes in at a step is exactly the value of that call, when the channel is open and has room; what comes out is the oldest; and nothing else moves |
| `ChannelWakeups.SpinsIff` | include/dumbo/v1/fiber/buffered_channel.hpp:98-119 | Some run hangs the thread in a pop if and only if the capacity is 1 and there is a fiber |
| `ChannelWakeups.BoundedIff` | include/dumbo/v1/fiber/buffered_channel.hpp:76-96 | The capacity bounds the values on the way on all runs if and only if it is not 1, or there is no fiber |
| `ChannelWakeups.RingCarriesBuffer` | include/dumbo/v1/fiber/buffered_channel.hpp:66-129 | For every capacity, each run of the blocking operations is carried by a run of the ring that holds the same queue; between segments is_full_ and is_empty_ answer as the model does, and a fiber that spins in the model spins in the ring |
| `ChannelWakeups.BlockingChannel.Shut` | include/dumbo/v1/fiber/buffered_channel.hpp:166-182 | Both wake-up loops: producers, then consumers, in queue order |
| `ChannelWakeups.BlockingChannel.PushValue` | include/dumbo/v1/fiber/buffered_channel.hpp:198-232 | Closed, stored with the first consumer woken, or queued with its value kept, which capacity 1 never does; the push log grows exactly on success |
| `ChannelWakeups.BlockingChannel.PushResumed` | include/dumbo/v1/fiber/buffered_channel.hpp:198-232 | The same round again, with the value kept |
| `ChannelWakeups.BlockingChannel.PopValue` | include/dumbo/v1/fiber/buffered_channel.hpp:384-456 | The front with the first producer woken, closed only when drained, queued, or spinning exactly behind two pushes at capacity 1 |
| `ChannelWakeups.BlockingChannel.TryPushValue` | include/dumbo/v1/fiber/buffered_channel.hpp:184-196 | Stored, full or closed; nobody is woken or suspended |
| `ChannelWakeups.BlockingChannel.TryPopValue` | include/dumbo/v1/fiber/buffered_channel.hpp:374-382 | The front, empty, closed when drained, or spinning as pop does; nobody is woken or suspended |
| `Unbuffered.SuccessMeansTaken` | include/dumbo/v1/fiber/unbuffered_channel.hpp:134-168 | A finished push returned success exactly when its slot was taken; no slot is taken twice; a pop returned the value of the call it took |
| `Unbuffered.CallsAreThePushes` | include/dumbo/v1/fiber/unbuffered_channel.hpp:134-168 | The calls are the pushes of the run, each with the value and the fiber it was made with |
| `Unbuffered.NoLostWakeUp` | include/dumbo/v1/fiber/unbuffered_channel.hpp:134-168 | An empty slot beside queued producers, or a full one beside queued consumers, comes with a woken fiber of that kind |
| `Unbuffered.OnlySlotSleepsAfterClose` | include/dumbo/v1/fiber/unbuffered_channel.hpp:116-132 | After a close the producer in the slot, if any, sleeps, and nobody else |
| `Unbuffered.CloseLeavesProducerAsleep` | include/dumbo/v1/fiber/unbuffered_channel.hpp:116-132 | For every number of fibers from 2 on, a push followed by another fiber's close ends with the producer asleep in the slot |
| `Unbuffered.CloseLeavesAsleepIff` | include/dumbo/v1/fiber/unbuffered_channel.hpp:116-132 | A closed channel can have a sleeping fiber if and only if there are two fibers or more |
| `Unbuffered.UnbufferedChannel.PushValue` | include/dumbo/v1/fiber/unbuffered_channel.hpp:134-168 | Refused when closed, in the slot with one consumer woken, or queued |
| `Unbuffered.UnbufferedChannel.PushReturn` | include/dumbo/v1/fiber/unbuffered_channel.hpp:150-153 | Success is returned by a call that was taken |
| `Unbuffered.UnbufferedChannel.PopValue` | include/dumbo/v1/fiber/unbuffered_channel.hpp:330-365 | Takes one call, hands out its value and readies its fiber; else closed or queued |
| `Unbuffered.UnbufferedChannel.Shut` | include/dumbo/v1/fiber/unbuffered_channel.hpp:116-132 | Wakes both queues in order and leaves the slot as it is |
| `Scheduler.HandOver` | src/fiber/scheduler.cpp:120-225 | At every switch point the dispatcher runs or is ready; the queues are duplicate-free, disjoint and without the active context; sleepers are sorted; get_next_ never failed |
| `Scheduler.DestroyedExactlyOnce` | src/fiber/scheduler.cpp:37-58 | A worker is destroyed at most once, exactly when terminated, swept and let go by its fiber object |
| `Scheduler.DestroyedIsUnreachable` | include/dumbo/v1/fiber/context.hpp:413-427 | A destroyed context is in no queue, is not active, has no joiner and no fiber object |
| `Scheduler.ShutdownDrains` | src/fiber/scheduler.cpp:97-164 | The dispatcher leaves its loop only with all queues empty; then every worker has terminated and those let go are destroyed |
| `Scheduler.JoinWaitsForTermination` | src/fiber/context.cpp:242-262 | join comes back only after its fiber has terminated |
| `Scheduler.RoundReadiesExpired` | src/fiber/scheduler.cpp:62-91 | A dispatcher round readies exactly the sleepers whose deadline has come |
| `Scheduler.BoundedWaiting` | src/fiber/algo/round_robin.cpp:20-38 | A context ready behind k others has run, or moved one place forward with every pick, unless readied again |
| `Scheduler.RunsWithinBound` | src/fiber/algo/round_robin.cpp:20-38 | So it runs within k + 1 picks; the dispatcher too |
| `Scheduler.ExpiredWakesWithinBound` | src/fiber/scheduler.cpp:62-164 | A sleeper whose deadline has come, with the dispatcher active or ready behind at most k others, becomes ready before more than k + 1 picks have passed, if the dispatcher's clock shows the deadline |
| `Scheduler.DispatcherIsNear` | src/fiber/scheduler.cpp:120-164 | In every reachable state such a k exists: the dispatcher is active or in the ready queue |
| `Scheduler.SleepsUntilItsDeadline` | src/fiber/scheduler.cpp:227-254 | wait_until(tp) puts the caller to sleep until exactly tp and leaves the other sleepers' deadlines alone |
| `Scheduler.WokenWithinBound` | src/fiber/scheduler.cpp:227-254 | A context that called wait_until(tp) has become ready before more than k + 1 picks have passed since the dispatcher's clock shows tp and the dispatcher was active or behind at most k others, whatever happened before |
| `Scheduler.SleepsAtLeast` | src/fiber/scheduler.cpp:62-91 | And it sleeps on while the dispatcher's clock shows less than tp, unless another context readies it |
| `Scheduler.RoundEffect` | src/fiber/scheduler.cpp:37-164 | A round of the loop, written out: one reference less for the terminated, those without fiber object destroyed in order, the sleepers due appended in deadline order, the front active and the dispatcher last |
| `Scheduler.FiberScheduler.LinkSleeper` | include/dumbo/v1/fiber/scheduler.hpp:42-59 | A sleeper goes behind every deadline that is not later |
| `Scheduler.FiberScheduler.ReleaseTerminated` | src/fiber/scheduler.cpp:37-58 | The sweep unlinks and releases every terminated context |
| `Scheduler.FiberScheduler.Sleep2Ready` | src/fiber/scheduler.cpp:62-91 | The loop readies the expired prefix of the sorted sleep queue |
| `Scheduler.FiberScheduler.MakeReady` | src/fiber/scheduler.cpp:166-184 | Unlinked from sleep and ready queues, then at the back of the ready queue |
| `Scheduler.FiberScheduler.Start` | src/fiber/fiber.cpp:24-42 | A new context with two references: readied (post), or run at once with its creator readied (dispatch) |
| `Scheduler.FiberScheduler.YieldActive` | src/fiber/scheduler.cpp:208-225 | The front of the ready queue runs, the caller goes to the back, and nothing else changes |
| `Scheduler.FiberScheduler.WaitUntil` | src/fiber/scheduler.cpp:227-254 | The caller's deadline is the argument, it sleeps behind those due no later and before the others, the front runs, and nothing else changes |
| `Scheduler.FiberScheduler.SuspendActive` | src/fiber/scheduler.cpp:286-296 | The caller is in no queue of the scheduler and the front runs |
| `Scheduler.FiberScheduler.WakeUp` | src/fiber/context.cpp:324-333 | The context named is ready and no longer asleep; the caller goes on |
| `Scheduler.FiberScheduler.Shutdown` | src/fiber/scheduler.cpp:97-105 | The flag is set and the front runs while main waits |
| `Scheduler.FiberScheduler.Terminate` | src/fiber/context.cpp:286-307 | The joiners become ready in the order they came, the context is queued for release, the front runs, and nothing else changes |
| `Scheduler.FiberScheduler.JoinFiber` | src/fiber/fiber.cpp:44-58 | The two errors, no wait for a terminated fiber, else linked and suspended |
| `Scheduler.FiberScheduler.JoinReturn` | src/fiber/fiber.cpp:56-57 | A join that comes back finds the fiber terminated and lets go of it |
| `Scheduler.FiberScheduler.DetachFiber` | src/fiber/fiber.cpp:60-67 | Lets go of the context, or reports that there is none |
| `Scheduler.FiberScheduler.DispatchRound` | src/fiber/scheduler.cpp:120-164 | Leaves exactly on shutdown without workers, then with every queue empty; else the round of `Scheduler.RoundEffect`, with the earliest deadline to wait for when nothing is ready |
| `RunAt.MessageInOnePlace` | src/reactor/reactor.cpp:43-67 | A message is in the target's inbox, with one serving fiber, in the origin's inbox, or finished, and in one of these only |
| `RunAt.OnceEach` | src/reactor/reactor.cpp:43-67 | Processed at most once, finished at most once and only then, returned at most once with the outcome of the processing |
| `RunAt.OutcomeIsFinal` | include/dumbo/v1/reactor/message/fiber_lambda_message.hpp:46-65 | The outcome set by process is never changed |
| `RunAt.MessagesAreTheCalls` | include/dumbo/v1/reactor/reactor.hpp:90-101 | The i-th message goes from the reactor and fiber of the i-th run_at to the reactor it asks for, and its outcome is what its own task ended with |
| `RunAt.ReplyFindsCallerLinked` | include/dumbo/v1/reactor/scheduler.hpp:84-102 | When a reply is received the caller is suspended and linked on that reactor, however it raced with the reply; no assertion fails |
| `RunAt.CallerOutlivesMessage` | include/dumbo/v1/reactor/reactor.hpp:90-101 | Until a message is finished its caller, on whose stack it lives, is inside that call |
| `RunAt.ExitLeavesNoCaller` | src/reactor/reactor.cpp:69-81 | An event loop that has ended has no unfinished call of its own |
| `RunAt.EndedTargetStrandsCall` | src/reactor/reactor.cpp:69-81 | A call in the inbox of an ended reactor stays there and never returns |
| `CallReturns.DoomedNeverReturns` | src/reactor/reactor.cpp:69-81 | If the calls nested in a call end with one in the inbox of an ended reactor, it never returns, whatever happens |
| `CallReturns.LiveCallCanReturn` | src/reactor/reactor.cpp:43-81 | From every reachable state any other call can be led to its return, processed and finished exactly once, by steps that make no call and end no reactor; they may make fresh fibers and unblock blocked ones |
| `CallReturns.CanReturnIff` | include/dumbo/v1/reactor/reactor.hpp:90-101 | So a call can return if and only if the chain of calls nested in it does not end with a stranded one |
| `CallReturns.UnstoppedCallsCanReturn` | src/reactor/reactor.cpp:69-81 | While no reactor has been told to stop, every call can be led to its return |
| `CallReturns.StrandedWasStopped` | src/reactor/reactor.cpp:69-81 | The target of a stranded call was told to stop |
| `CallReturns.CallToEndedReactor` | include/dumbo/v1/reactor/reactor.hpp:90-101 | For every target beside another reactor, a run that strands a call to it |
| `CallReturns.StrandsIff` | src/reactor/reactor.cpp:69-81 | With only certain reactors told to stop, a call can be stranded if and only if one of these exists and there are two reactors or more |
| `RunAt.Cluster.SubmitRunAt` | include/dumbo/v1/reactor/reactor.hpp:90-97 | A fresh message of the caller is at the end of the inbox of the reactor asked for, the caller still runs, and nothing else changes |
| `RunAt.Cluster.SuspendRunAt` | include/dumbo/v1/reactor/scheduler.hpp:84-91 | The caller, not linked before, is linked and the next fiber runs |
| `RunAt.Cluster.ReturnRunAt` | include/dumbo/v1/reactor/message/fiber_lambda_message.hpp:58-65 | Returns the result or rethrows the exception of this very call, which was processed and finished |
| `RunAt.Cluster.ReceiveOne` | src/reactor/reactor.cpp:43-67 | A reply unlinks its caller and puts it at the back of the ready queue; a request gets a fiber of its own there |
| `RunAt.Cluster.ReceiveAll` | src/reactor/reactor.cpp:78 | Takes, in order, every message that was in the inbox at the start and no later one, while the other reactors act between any two: replies are finished, requests have their fibers |
| `RunAt.Cluster.YieldLoop` | src/reactor/reactor.cpp:80 | The event loop goes behind its reactor's ready fibers and the front runs |
| `RunAt.Cluster.Process` | include/dumbo/v1/reactor/message/fiber_lambda_message.hpp:46-56 | Keeps the task's result or its exception, once |
| `RunAt.Cluster.SendBack` | src/reactor/reactor.cpp:49-54 | The message goes to the inbox of the reactor it came from |

## Left out

- Memory orderings, fences and padding: memory is sequentially consistent; indices are unbounded integers, so nothing is said beyond 2^63.
- Back-off counters, random spinning and pauses: a retry may happen at any time, and a weak compare-and-swap may fail without cause.
- Unbounded retry and wait loops in the class methods follow a given number of rounds (`patience`) and report when these did not suffice; the machines have no such bound.
- `RingChannel.EveryStepRefines`: for capacities of at least 2, like the other results of that module; what the code does with capacity 1 is in `RingChannel.CapacityOneOverflows` and `SingleSlot`.
- `ChaseLev.NoMissNoLoss`: does not promise that nothing is lost after a lost last-element race, because the code then loses entries; `ChaseLev.LosesExactlyBelowTop` says exactly which.
- `SpmcQueue.ContextSpmcQueue.Pop`: the pinned test on a value not yet won is made on an optional value; the source dereferences the pointer, which may be null or outdated for a stale reader.
- `ChannelWakeups.NoLostWakeUp`: not for runs with try_push or try_pop, which notify nobody; `ChannelWakeups.NeverLostIff` says exactly when it holds for them.
- `ChannelWakeups.BlockingChannel.PushValue`: the class holds the queue that the ring stands for; the slots are those of `RingChannel`, tied by `ChannelWakeups.RingCarriesBuffer`.
- `Barrier.OpensAfterAllArrivals`: for at most `initial` fibers, like `Barrier.EachGenerationIsLeftByAll`; `Barrier.CycleTellsIff` shows that with more the bit no longer tells the generation, and `Barrier.CycleTellsParity` what it still tells.
- Timed waits of channels, mutexes and condition variables (`*_wait_for`, `*_wait_until`, timed mutexes): not modelled; `Scheduler` has the timed sleep they build on.
- Channel destructors, and the move-assignment variants of push, which differ only in how the value is passed.
- `MPSCQueue::get(T&)`: it adds the next sequence number twice when it reads the slot. `Disruptor.CurrentEventSlot` says exactly when that is the right slot, and `Disruptor.CurrentEventIff` for which sizes it always is; as a method only get(n, fn) and get_all are modelled.
- SingleThreadedStrategy: its claims are those of `Disruptor` with one producer, which publishes without waiting for its turn.
- Wait strategies other than DontWaitStrategy, and sequence barriers with dependents.
- The remote links of `MpscList` are one map from nodes to nodes instead of a field of each context.
- `Scheduler.FiberScheduler.Start`: contexts are records in a sequence of the scheduler, and hooks are membership in its queues; separate context objects and their aliasing are not modelled, nor stacks and real context switching.
- round_robin's flag and condition variable: the thread's wait is the deadline that `Scheduler.FiberScheduler.DispatchRound` returns.
- `RunAt.Cluster.ReceiveOne`: inboxes are unbounded sequences in claim order, so `RunAt` and `CallReturns` assume that no inbox ever fills. A sender at a full inbox spins on its thread (`Disruptor.FullInboxHoldsSender`), and for ever if that thread is the one that would empty it, as when a reactor calls itself, or two reactors are full for each other.
- One-way messages, I/O messages and the poller of the event loop.
- Files, sockets, AIO, thread pool, futures and promises, fiber-specific pointers, fiber properties, latch, deprecated channels and the reactor's RingBuffer.

# Models of kernel and build-time algorithms of Zephyr

A Dafny project that models the algorithms of the Zephyr repository with the most state and
branching, and proves what they promise. `dafny verify dfyconfig.toml` checks all of it.

| file | models | shown |
|---|---|---|
| `Timeout.dfy` | the timeout queue of `kernel/timeout.c` | a list of deltas is a clock of absolute expiries; announcing fires exactly what is due, in order, whatever callbacks do |
| `Pipes.dfy` | the pipe of `kernel/pipes.c` | ring indices and direct copies refine a byte stream; every run keeps it; exactly when a writer stays blocked that has nothing left |
| `StreamPipe.dfy` | the pipe of `kernel/pipe.c` | the same for a protocol that drops its lock while it waits, under every interleaving |
| `Work.dfy` | the work queues of `kernel/work.c` | flags tell where an item is, in every state of every run; submissions begin in order and none that was cancelled; what flush, drain and plug mean; when a second canceller is forgotten |
| `Paging.dfy` | page frames and demand paging of `kernel/mmu.c` | paging never changes what a page holds, exactly while the BACKED flag is told; frame accounting in every state from boot on, and pinned pages stay in their frames |
| `VirtRegion.dfy` | the virtual region allocator of `kernel/mmu.c` | aligned, disjoint regions out of a reversed bitmap; release undoes allocation |
| `Mutex.dfy` | priority inheritance of `kernel/mutex.c` | the owner's priority and count under every interleaving, and exactly when the ceiling breaks the first |
| `MsgQ.dfy` | the message queue of `kernel/msg_q.c` | a bounded FIFO over bytes and pointers; one wait queue for readers and writers is sound exactly with room for a message |
| `Poll.dfy` | `k_poll()` of `kernel/poll.c` | no registration leaks, a signal before the wait prevents it, and exactly when a thread keeps waiting while signals go to others |
| `Bits.dfy`, `PageTables.dfy` | the boot page tables of `arch/x86/gen_mmu.py` | a radix tree refines a flat map, for every sequence of calls |
| `ModuleSort.dfy` | the order of modules of `scripts/zephyr_module.py` | sound and complete, with the exact condition |
| `Idt.dfy` | the vectors of `arch/x86/gen_idt.py` | sound and complete, with the exact condition |
| `WaitQueue.dfy` | wait queues ordered by priority | stable insertion |

Code that updates state is a class whose methods work on the same fields as the source; each
method is proved equal to a step of a value-level specification. The theorems are about these
specifications: what every step keeps, what then holds in every state of every run, and what
each call does and tells its caller, every result with its exact condition. A
section of code under one lock is one step, and a thread that waits is split at its wait.
Threads, their priorities, timeouts, the results of hardware and of code that is not modelled
are parameters of the steps. Integers are unbounded unless a row says otherwise.

Where the code does not keep what its documentation says, the model follows the code and states
when it does: `Pipes.ReadForgetsIff`, `StreamPipe.WriterToldIff`, `Work.CancellersReleasedIffOne`, `Work.DrainMeansEmpty`,
`Paging.FaultSoundIffFlagTold`, `Mutexes.LoweredTooFarIff`, `Mutexes.BoostFallsShortIff`, `MsgQueue.OneKindOfWaiterIff`,
`MsgQueue.PeekReadsTheMessageIff`, `Poll.SignalWakesIff`, `PageTables.NeverMappedPresentIff` and
`ModuleSort.ParseModules` give the exact conditions, with a run, a state or an input for the other
case.

## Model

| member | source | states |
|---|---|---|
| `Timeout.AddedKeeps` | kernel/timeout.c:106-149 | adding a timeout puts exactly one entry with the asked-for expiry into the sorted, stable sequence of expiries, strictly in the future, and moves no other expiry |
| `Timeout.AbortedKeeps` | kernel/timeout.c:151-168 | aborting takes out exactly the entry of that timeout and moves no other expiry |
| `Timeout.LinkRefines` | kernel/timeout.c:132-143 | linking a node at the place the search finds, and taking its delta off the successor, is insertion into the sequence of absolute expiries |
| `Timeout.UnlinkedAt` | kernel/timeout.c:60-67 | handing the delta of a removed node to its successor moves no other expiry |
| `Timeout.AnnounceFiresExactlyTheDue` | kernel/timeout.c:225-274 | for all callbacks that add and abort timeouts meanwhile: firings come in order of expiry and then of insertion, none twice, only due ones; everything pending or added on the way has fired, was aborted, or lies beyond the end |
| `Timeout.FiresAsPromised` | kernel/timeout.c:106-274 | a timeout that is added fires, unless aborted, exactly on the tick that was promised for it: the next tick boundary after the asked number of ticks from now, or the asked absolute tick and never before the next |
| `Timeout.ForeverNeverFires` | kernel/timeout.c:110-112 | one with no end is not added |
| `Timeout.LastWordCounts` | kernel/timeout.c:245-258 | whatever a callback adds and aborts, a timeout is pending afterwards exactly if its last word on it says so |
| `Timeout.TimeoutQueue.RemoveTimeout` | kernel/timeout.c:60-67 | the delta list without node `i` stands for the same expiries without entry `i` |
| `Timeout.TimeoutQueue.AddTimeout` | kernel/timeout.c:106-149 | the delta list then stands for the clock with the timeout added, relative or absolute, counted from the elapsed ticks; K_FOREVER adds nothing |
| `Timeout.TimeoutQueue.AbortTimeout` | kernel/timeout.c:151-168 | reports success exactly when the timeout was linked, and then stands for the clock without it |
| `Timeout.TimeoutQueue.TimeoutRem` | kernel/timeout.c:171-183 | the sum of deltas is the distance of the expiry from the current tick |
| `Timeout.TimeoutQueue.TimeoutExpires` | kernel/timeout.c:198-210 | the absolute expiry of a linked timeout, the current tick of an unlinked one |
| `Timeout.TimeoutQueue.FireFirst` | kernel/timeout.c:245-258 | one round of the announce loop moves the tick to the first expiry, unlinks the first timeout and runs its callback |
| `Timeout.TimeoutQueue.SysClockAnnounce` | kernel/timeout.c:225-274 | the loop, with its remaining-ticks counter, ends in the clock and the firings of the specification that `AnnounceFiresExactlyTheDue` is about |
| `Pipes.RefillIsInvisible` | kernel/pipes.c:638-660 | moving bytes of blocked writers into the ring leaves what readers will see unchanged, and leaves bytes with writers only if the ring is then full |
| `Pipes.TakenLeavesTheRest` | kernel/pipes.c:541-707 | a read takes a prefix of the ring and the blocked writers' bytes, in order, and leaves exactly the rest; writers with bytes left stay only beside a full ring |
| `Pipes.GetKeeps` | kernel/pipes.c:541-707 | a read keeps the pipe sound: accepted bytes are delivered bytes and ring, readers and writers never block together, writers with bytes left only on a full ring, counts told to writers add up |
| `Pipes.PutKeeps` | kernel/pipes.c:390-523 | a write keeps all of this, serving blocked readers before the ring |
| `Pipes.ExpiredKeeps` | kernel/pipes.c:497-523 | so does the timeout of a blocked reader or writer, with its partial transfer reported, also of a writer that has nothing left |
| `Pipes.BufferFlushDropsTheRing` | kernel/pipes.c:142-158 | flushing the buffer drops exactly the ring and no byte of a blocked writer |
| `Pipes.FlushDropsEverything` | kernel/pipes.c:118-130 | flushing the pipe drops the ring and every blocked writer's bytes |
| `Pipes.EveryRunKeepsTheStream` | kernel/pipes.c:390-707 | over every run of writes, reads, flushes and timeouts from an empty pipe: what was taken followed by the ring is what was sent, nothing lost, repeated or reordered; counts told and the progress of blocked writers add up to it; blocked readers only on an empty pipe without writers, and on a ring that is not full only writers that have nothing left |
| `Pipes.PutTells` | kernel/pipes.c:390-523 | every result of a write with its exact condition: refused exactly if it asks for more than it has, sent back exactly if it may not wait and the pipe cannot take the least, both with nothing changed; else the pipe accepts the first bytes, as many as readers want and the ring has room for, and the count told is that number, never below the least, and short only for a caller that may not wait or asked for a least; blocked in the other cases, with the rest |
| `Pipes.GetTells` | kernel/pipes.c:541-707 | the same for a read: the bytes are the first of the stream, the count told is theirs and never below the least, the stream goes on with the rest, and the writers it readies are told the length of their data |
| `Pipes.ExpiredTells` | kernel/pipes.c:497-523 | a thread that gives up leaves its queue and nobody else does; a writer is told what was moved; no byte moves |
| `Pipes.FedEach` | kernel/pipes.c:336-388 | each blocked reader, by its place in the queue, receives exactly the bytes after those that the readers before it wanted, and is readied exactly when it then wants no more |
| `Pipes.ReadiedAreDone` | kernel/pipes.c:600-636 | a writer that a read readies was blocked, and all its bytes are gone, so the count it is told is the length of its data |
| `Pipes.ReadForgetsIff` | kernel/pipes.c:600-660 | a read leaves a writer blocked that has nothing left to write if and only if the refill, not the direct copy, takes the last byte of one, or one that had nothing left is not visited; told from the length of the ring, what is asked and what the writers have left |
| `Pipes.SatisfiedWriterStays` | kernel/pipes.c:638-660 | a full ring of ten, a writer with two bytes left, a read of five: the writer stays blocked with nothing left on a ring of seven |
| `Pipes.FullRingReached` | kernel/pipes.c:390-523 | two writes on an empty pipe lead to that state |
| `Pipes.FirstIsReadied` | kernel/pipes.c:600-636 | the next read, of any size, readies such a writer if it is the first in the queue |
| `Pipes.RingRead` | kernel/pipes.c:212-230 | reading bytes that do not wrap is dropping them from the front of the ring |
| `Pipes.RingWrite` | kernel/pipes.c:212-230 | writing bytes that do not wrap is appending them to the ring |
| `Pipes.Pipe.ReadRing` | kernel/pipes.c:600-636 | reading through the one or two pieces of the ring yields its first bytes and keeps the index equation |
| `Pipes.Pipe.Visited` | kernel/pipes.c:257-276 | the waiters collected for a transfer: the first, and then as long as the ones before do not offer enough |
| `Pipes.Pipe.FeedReaders` | kernel/pipes.c:336-388 | direct copies give each blocked reader, in queue order, the next bytes; the satisfied ones are returned with what they received |
| `Pipes.Pipe.DrainWriters` | kernel/pipes.c:600-636 | every visited writer gives its next bytes, in queue order, and is readied exactly if it then has nothing left, also if it had nothing before; the others keep their places |
| `Pipes.Pipe.FillRing` | kernel/pipes.c:336-388 | a write fills the free pieces of the ring from as many sources as it takes |
| `Pipes.Pipe.Refill` | kernel/pipes.c:638-660 | the refill after a read is the specification's: bytes move, and nobody is readied |
| `Pipes.Pipe.KPipePut` | kernel/pipes.c:390-523 | the call on ring indices does and returns what the specification says that `PutTells` and `PutKeeps` are about, with the count told, and readies just the readers it satisfies |
| `Pipes.Pipe.KPipeGet` | kernel/pipes.c:541-707 | the same for a read and `GetTells`, with the bytes copied and the writers readied |
| `Pipes.Pipe.WriterTimesOut` | kernel/pipes.c:505-523 | a writer that times out reports what it had sent, which may be all |
| `Pipes.Pipe.ReaderTimesOut` | kernel/pipes.c:691-707 | a reader that times out reports what it had received |
| `Pipes.Pipe.KPipeFlush` | kernel/pipes.c:118-130 | the call does what `FlushDropsEverything` is about |
| `Pipes.Pipe.KPipeBufferFlush` | kernel/pipes.c:142-158 | the call does what `BufferFlushDropsTheRing` is about |
| `Pipes.Pipe.ReadAvail` | kernel/pipes.c:749-774 | computed from the indices, the number of bytes in the ring |
| `Pipes.Pipe.WriteAvail` | kernel/pipes.c:786-811 | computed from the indices, the room left in the ring |
| `StreamPipe.FedKeeps` | kernel/pipe.c:93-145 | direct copies keep the pipe sound, and a writer that still has bytes has served every waiting reader |
| `StreamPipe.FedCount` | kernel/pipe.c:93-145 | as many bytes go straight to waiting readers as they want together, and just those are accepted |
| `StreamPipe.FedEach` | kernel/pipe.c:93-145 | each waiting reader, by its place in the queue, gets exactly the bytes after those that the readers before it want, and is woken exactly if it then has all it wants |
| `StreamPipe.WriteTurnKeeps` | kernel/pipe.c:147-216 | one lock section of a write keeps the pipe sound; what it reports is what was accepted from this call; it fails with EPIPE exactly on a closed pipe; short counts only when it may not wait |
| `StreamPipe.ReadTurnKeeps` | kernel/pipe.c:219-269 | one lock section of a read keeps the pipe sound; what it returns is what was delivered to this call; EPIPE only with nothing received from an empty closed pipe |
| `StreamPipe.LeftKeeps` | kernel/pipe.c:54-64 | a woken thread that runs again leaves the count, and the last one ends a reset |
| `StreamPipe.ResetKeeps` | kernel/pipe.c:272-284 | a reset empties the ring, wakes everybody, and stays in progress exactly if somebody was waiting |
| `StreamPipe.CloseKeeps` | kernel/pipe.c:286-295 | a close wakes everybody and keeps the pipe sound |
| `StreamPipe.NextKeeps` | kernel/pipe.c:37-295 | every step, of any thread, keeps the pipe sound, and every return value tells what happened to the bytes of that call; for a writer that runs again, if and only if the condition of `WriterToldIff` holds |
| `StreamPipe.NextTells` | kernel/pipe.c:37-295 | every step with its exact result: a call is cancelled exactly under a reset; a write takes what readers want and the ring has room for, fails exactly on a closed pipe, waits exactly if something is left and it may, and comes back empty only if nothing was taken and it may not; a read takes the oldest bytes in the same way; a thread that timed out is told what it has; a reset and a close wake everybody |
| `StreamPipe.WriteTurnTells` | kernel/pipe.c:147-216 | the part of this about a write |
| `StreamPipe.ReadTurnTells` | kernel/pipe.c:219-269 | the part of this about a read |
| `StreamPipe.WriterToldIff` | kernel/pipe.c:147-216 | over every run: the count that a resumed writer is told is what the pipe has accepted from it and not thrown away, if and only if it does not come from a timeout, outside of a reset, after a reset on the run that found a byte of it in the ring |
| `StreamPipe.CloseHidesAReset` | kernel/pipe.c:272-295 | a run on which it fails: a close ends the reset, and a writer that timed out is told that one byte was written, which the reset has thrown away |
| `StreamPipe.EveryRunIsSafe` | kernel/pipe.c:37-295 | under every interleaving: a waiting reader implies an empty ring, a waiting writer a full one, never both; RESET implies somebody waiting; the waiting count is exact; accepted bytes are delivered bytes followed by the ring |
| `StreamPipe.ResettingCancels` | kernel/pipe.c:56-62 | during a reset every call that starts or resumes is cancelled, and the reset ends with the last waiter |
| `StreamPipe.KPipe.CopyToPendingReaders` | kernel/pipe.c:93-145 | the loop hands the bytes to the waiting readers as the specification does |
| `StreamPipe.KPipe.WakeSpace` | kernel/pipe.c:235-238 | all waiting writers are woken, none is lost |
| `StreamPipe.KPipe.WakeData` | kernel/pipe.c:272-295 | all waiting readers are woken, none is lost |
| `StreamPipe.KPipe.WriteLoop` | kernel/pipe.c:162-208 | the loop up to its return or wait is the specified turn |
| `StreamPipe.KPipe.ReadLoop` | kernel/pipe.c:234-261 | the loop up to its return or wait is the specified turn |
| `StreamPipe.KPipe.KPipeWrite` | kernel/pipe.c:147-216 | the call up to its return or wait, cancelled while a reset is in progress |
| `StreamPipe.KPipe.KPipeRead` | kernel/pipe.c:219-269 | the call up to its return or wait, cancelled while a reset is in progress |
| `StreamPipe.KPipe.ResumeCall` | kernel/pipe.c:37-65 | the end of a wait and the loop around it, for threads that were woken, timed out or reset |
| `StreamPipe.KPipe.KPipeReset` | kernel/pipe.c:272-284 | the call does what `ResetKeeps` is about |
| `StreamPipe.KPipe.KPipeClose` | kernel/pipe.c:286-295 | the call does what `CloseKeeps` is about |
| `Work.StepKeeps` | kernel/work.c:125-1175 | every step of submitters, flushers, cancellers, drainers, timers and workers keeps the queues, flags and submissions consistent |
| `Work.FlagsTellWhere` | kernel/work.c:317-712 | in every state of every run: an item is in a queue's pending list exactly once if it is QUEUED on that queue, and else not at all; a queue's thread is in its handler exactly if it is RUNNING on that queue; CANCELING implies RUNNING and not QUEUED |
| `Work.SubmitTells` | kernel/work.c:257-362 | every return value of a submission with its exact condition; accepted, it is the last on the queue asked for, or on the one that runs the item, with the thread awake; else nothing changes |
| `Work.CancelTells` | kernel/work.c:498-531 | after a cancellation the item is on no queue and not delayed, the submission that waited is cancelled and no other is touched, and the item is being cancelled exactly if it runs; nothing else changes |
| `Work.CancelSyncTells` | kernel/work.c:534-600 | the same for a cancellation that waits, which it does exactly if the item is in a handler |
| `Work.CancelStops` | kernel/work.c:498-712 | over every run no submission of an item that was made before a cancellation begins to execute after it |
| `Work.BegunInOrder` | kernel/work.c:257-679 | over every run submissions to a queue begin in the order in which they were made |
| `Work.FlushTells` | kernel/work.c:437-453 | a flush waits exactly if the item is queued or running, and queues its marker on that queue |
| `Work.LookTells` | kernel/work.c:613-679 | what an awake thread does with its queue: take the first node, release the drainers, end or sleep, each with its exact condition |
| `Work.FinishTells` | kernel/work.c:686-703 | after a handler its item neither runs nor is being cancelled; if it was being cancelled, the first waiting canceller of it is released, and no other |
| `Work.QueueCallsTell` | kernel/work.c:769-862 | what drain, unplug and stop return, each with its exact condition |
| `Work.StoppedIff` | kernel/work.c:606-862 | a queue stops exactly when its thread was asked to, finds nothing pending and has no drain to do; the other flags change exactly by their calls |
| `Work.TimerSubmits` | kernel/work.c:864-985 | when its timer expires a scheduled item is submitted as a call would do then, and one that was unscheduled or cancelled in between is not |
| `Work.NoSleepOverWork` | kernel/work.c:613-679 | in every state of every run: a sleeping worker has nothing pending and no drain; threads wait for a drain only while DRAIN is set; a queue that is not started has no thread and nothing pending |
| `Work.NeverReentrant` | kernel/work.c:317-362 | in every state of every run no item is in the handlers of two queues |
| `Work.ExecutedAtMostOnce` | kernel/work.c:606-712 | over every run a submission is executed at most once, and never after it was cancelled |
| `Work.FateAdvances` | kernel/work.c:498-712 | a submission waits, and then is cancelled or executes and finishes; no step does otherwise |
| `Work.FlushTargetsTheLast` | kernel/work.c:437-453 | a flush is put right behind the last submission of its item: the queued one, else the running one |
| `Work.FlushMeansOver` | kernel/work.c:187-199 | when a flusher runs, the submission it was for has finished or was cancelled |
| `Work.DrainMeansEmpty` | kernel/work.c:644-655 | over every run the threads that wait for a drain go if and only if the worker finds its queue empty, then idle and sealed if plugged, or the queue is started under them, which drops its wait queue |
| `Work.PluggedStaysEmpty` | kernel/work.c:769-818 | after a plugged drain no step but an unplug or the exit on a stop puts anything on the queue |
| `Work.PluggedStaysEmptyOverARun` | kernel/work.c:769-818 | the same from any state of a run to any later one |
| `Work.CancellersReleasedIffOne` | kernel/work.c:125-148 | finishing a cancelled item releases all threads that wait for it if and only if at most one does |
| `Work.SecondCancellerIsForgotten` | kernel/work.c:125-148 | two threads that cancel the same running item and wait: after it finishes the second still waits, though nothing is being cancelled any more |
| `Work.WorkQueues.QueueSubmitLocked` | kernel/work.c:257-289 | admission: refused unless the queue is started and neither plugged nor drained from outside nor stopped; then appended at the tail |
| `Work.WorkQueues.SubmitToQueueLocked` | kernel/work.c:317-362 | the item's flags and queue after a submission, with every return value |
| `Work.WorkQueues.WorkFlushLocked` | kernel/work.c:437-453 | tells whether there is something to wait for, and queues the flusher where `FlushTargetsTheLast` says |
| `Work.WorkQueues.CancelAsyncLocked` | kernel/work.c:498-531 | a queued item is taken off and a running one marked, as the specification says that `CancelTells` and `CancelStops` are about |
| `Work.WorkQueues.CancelSync` | kernel/work.c:534-600 | the same with `CancelSyncTells`, and the caller waits exactly if the item is being cancelled |
| `Work.WorkQueues.WorkerLook` | kernel/work.c:613-679 | the worker takes the first node and clears QUEUED while setting RUNNING, or releases drainers and sleeps |
| `Work.WorkQueues.WorkerFinish` | kernel/work.c:686-703 | after a handler RUNNING is cleared and a cancellation finalized |
| `Work.WorkQueues.FinalizeCancelLocked` | kernel/work.c:125-148 | the first waiting canceller of the item is released |
| `Work.WorkQueues.QueueDrain` | kernel/work.c:769-798 | a drain waits exactly if the queue is busy, not empty, draining already or to be plugged |
| `Paging.EvictedKeeps` | kernel/mmu.c:1317-1435 | evicting a page, dirty or with a good copy in the store, changes no page's contents and keeps the frame accounting |
| `Paging.AnonMappedKeeps` | kernel/mmu.c:520-567 | mapping an anonymous page, from a free frame or a victim's, changes no other page |
| `Paging.FaultedKeeps` | kernel/mmu.c:1613-1765 | a page fault brings in the page and changes no page's contents |
| `Paging.FaultSoundIffFlagTold` | kernel/mmu.c:1613-1765 | the accounting survives a fault if and only if the store's finalize clears BACKED, sets it for a slot that the page was read from, or leaves it and the victim's frame did not have it; if it sets it for an anonymous page, if and only if an old note of the store for the frame happens to fit |
| `Paging.StaleFlagLosesThePage` | kernel/mmu.c:1613-1765 | otherwise the page that was brought in reads, after a clean eviction, as the page that had the frame before |
| `Paging.UnmappedKeeps` | kernel/mmu.c:719-795 | unmapping takes away that page only and frees its frame |
| `Paging.StepKeeps` | kernel/mmu.c:399-1827 | every step keeps the accounting and the contents of all pages but the one it is meant to change |
| `Paging.StepDoes` | kernel/mmu.c:399-1827 | every step does what it is for: a fault or a mapping leaves the page in memory, pinned and no candidate for eviction exactly if that was asked for; pin and unpin likewise; an eviction leaves it in its slot and its frame free; an unmapping leaves no entry. Every other page keeps its entry, its frame and its pin, but for at most one that a frame is taken from, and that one was not pinned |
| `Paging.PinnedStays` | kernel/mmu.c:1784-1827 | over every run from boot a pinned page stays in memory, in the same frame, until it is unpinned or unmapped |
| `Paging.PinBegins` | kernel/mmu.c:1784-1799 | and it is pinned after every step of a run that pins it |
| `Paging.ReservedStays` | kernel/mmu.c:399-466 | over every run just the frames reserved at boot are reserved, and those are never free and never hold a page |
| `Paging.BootFrames` | kernel/mmu.c:1083-1181 | at boot the frames outside of the image that are not reserved are free, and no other |
| `Paging.BootPages` | kernel/mmu.c:1083-1181 | at boot the pages of the image are in their frames, pinned, those of on-demand sections in the store, each with what is there, and there is no other page |
| `Paging.PagingIsInvisible` | kernel/mmu.c:1302-1827 | over every run of faults, evictions, pins, unpins, mappings and writes to other pages, from any state that a run from boot leads to, a page keeps its contents; the faults are those of the exact condition of `FaultSoundIffFlagTold` |
| `Paging.FrameAccounting` | kernel/mmu.c:399-466 | in every state that a run from boot leads to: no page in two frames, a loaded page in the frame marked for it, no frame free and mapped, reserved frames neither, none twice on the free list, the free count exact, and exactly the unpinned mapped frames are candidates for eviction |
| `Paging.SlotAccounting` | kernel/mmu.c:1317-1375 | in every such state: a page that was paged out has a slot in the store that no other page has and no frame keeps a copy in |
| `Paging.BootKeeps` | kernel/mmu.c:1083-1181 | the state at the end of initialisation is sound |
| `Paging.MemoryManager.constructor` | kernel/mmu.c:1083-1181 | the frames of the image are mapped and pinned, reserved ones stay reserved, all others are free in order; on-demand pages are in the store |
| `Paging.MemoryManager.FreePageFrameListGet` | kernel/mmu.c:399-415 | takes the first free frame, or none if there is none |
| `Paging.MemoryManager.PageFrameFreeLocked` | kernel/mmu.c:417-443 | a frame's flags are cleared and it joins the free list |
| `Paging.MemoryManager.PageOutFrame` | kernel/mmu.c:1317-1375 | the victim's entry points to the store, and its data go there unless a good copy is there already; with a full store it fails and nothing changes |
| `Paging.MemoryManager.DoMemEvict` | kernel/mmu.c:1377-1435 | a loaded page is paged out and its frame freed, or nothing changes when the store is full; any other page is left alone; no contents change |
| `Paging.MemoryManager.MapAnonPage` | kernel/mmu.c:520-567 | the call does what `AnonMappedKeeps` is about, and leaves the page pinned exactly if it is to be locked; it fails, and nothing changes, exactly if no frame is free and the store is full |
| `Paging.MemoryManager.DoPageFault` | kernel/mmu.c:1613-1765 | handled unless the page is not mapped; brings in a page that is not loaded; afterwards the page is in memory, and pinned and no candidate for eviction if that was asked for; the accounting and all contents survive if and only if the condition of `FaultSoundIffFlagTold` holds |
| `Paging.MemoryManager.DoMemUnpin` | kernel/mmu.c:1806-1827 | a pinned page in memory is no longer pinned and a candidate for eviction again; no contents change |
| `Paging.MemoryManager.UnmapAnonPage` | kernel/mmu.c:719-795 | the call does what `UnmappedKeeps` is about, and refuses an address that is not mapped |
| `Paging.MemoryManager.UnmapAnonRegion` | kernel/mmu.c:719-795 | the loop takes away the pages of the region up to the first that is not mapped, and changes no other page |
| `Paging.MemoryManager.KMemUnmap` | kernel/mmu.c:678-817 | nothing happens if a guard page is in memory; else the loop; the virtual region, with its guard pages, is given back if and only if all its pages were mapped |
| `VirtRegion.Allocated` | kernel/mmu.c:288-368 | a region over clear bits overlaps no live region and sets just its own bits |
| `VirtRegion.Released` | kernel/mmu.c:240-286 | giving a live region back clears just its bits |
| `VirtRegion.TrimmedBits` | kernel/mmu.c:316-359 | freeing the unaligned head and tail of an over-sized run leaves just the bits of the aligned region |
| `VirtRegion.FreeIsBounded` | kernel/mmu.c:240-265 | freeing any stretch, in use or not, clears bits that were all set or none, and never that of a page which is not given out |
| `VirtRegion.SameBits` | kernel/mmu.c:186-194 | the bitmap is determined by the live regions |
| `VirtRegion.VirtRegions.BitarrayAlloc` | kernel/mmu.c:300-308 | sets the first run of clear bits that is long enough, and fails only if there is none |
| `VirtRegion.VirtRegions.VirtRegionInit` | kernel/mmu.c:213-238 | the pages below and above what may be mapped are taken from the start |
| `VirtRegion.VirtRegions.VirtRegionFree` | kernel/mmu.c:240-286 | clears the bits of an address range, and nothing if any of them is clear or it is outside |
| `VirtRegion.VirtRegions.Release` | kernel/mmu.c:240-286 | giving back a live region leaves the others |
| `VirtRegion.VirtRegions.VirtRegionAlloc` | kernel/mmu.c:288-368 | an aligned region inside the mappable space, apart from all live ones; failure leaves everything as it was and means that no run of pages for the size and the slack of the alignment is clear |
| `VirtRegion.AllocateAndRelease` | kernel/mmu.c:240-368 | allocating and giving back restores the bitmap exactly |
| `Mutexes.QueuedKeeps` | kernel/mutex.c:145-156 | contention keeps the invariant of all mutexes: the owner is lifted to the waiter, up to the ceiling, and the waiter queued by priority |
| `Mutexes.DeboostedKeeps` | kernel/mutex.c:170-188 | a thread that timed out lowers whoever owns the mutex by then to what its waiters need |
| `Mutexes.ReleasedKeeps` | kernel/mutex.c:252-281 | unlocking gives the owner back the priority it was given, and hands over to the first waiter, who has nothing to inherit |
| `Mutexes.EveryRunInherits` | kernel/mutex.c:82-284 | on fresh mutexes, with no priority above the ceiling, after every interleaving of locks, unlocks, timeouts and late de-boosts: no owner iff no count, no owner without waiters, the owner at least as high as its own priority and every waiter's, exactly the best of them unless a de-boost is outstanding, and everybody else at its own priority |
| `Mutexes.EveryRunCounts` | kernel/mutex.c:105-284 | after every run on fresh mutexes the count is the number of locks that the owner got, with the hand-over, less those it has undone, and owner and waiters are those that the calls and their return values tell |
| `Mutexes.OwnerLosesIff` | kernel/mutex.c:236-284 | an owner loses a mutex exactly by the unlock that matches its first lock |
| `Mutexes.LockTells` | kernel/mutex.c:105-156 | every result of a lock with its exact condition: got exactly if nobody else has it, and then once more; else refused with nothing changed, or queued by priority with the mutex left alone; no other mutex and no third thread is touched |
| `Mutexes.UnlockTells` | kernel/mutex.c:211-284 | every result of an unlock with its exact condition: refused without an owner and to others; counted down; at count 1 free, or with the first waiter at count 1 |
| `Mutexes.LoweredTooFarIff` | kernel/mutex.c:178-188 | a de-boost takes an owner below the priority it was given if and only if that is above the ceiling and somebody still waits |
| `Mutexes.CeilingLowersAnOwner` | kernel/mutex.c:178-188 | a run of five steps on which this happens |
| `Mutexes.BoostFallsShortIff` | kernel/mutex.c:147-154 | a boost falls short of the waiter if and only if the waiter is above the ceiling and above the owner |
| `Mutexes.CeilingStopsABoost` | kernel/mutex.c:147-154 | a run on which the boost falls short |
| `Mutexes.MutexSystem.constructor` | kernel/mutex.c:55-70 | mutexes start without owner, count and waiters, and threads with the priority they were given |
| `Mutexes.MutexSystem.AdjustOwnerPrio` | kernel/mutex.c:91-103 | the thread's priority is the new one and nothing else changes |
| `Mutexes.MutexSystem.KMutexLock` | kernel/mutex.c:105-156 | taken, re-taken, refused or queued, as the specification says that `LockTells` and `EveryRunCounts` are about |
| `Mutexes.MutexSystem.LockTimedOut` | kernel/mutex.c:168-199 | the de-boost after a timeout, as specified |
| `Mutexes.MutexSystem.KMutexUnlock` | kernel/mutex.c:211-284 | refused, counted down or handed over, as the specification says that `UnlockTells` and `OwnerLosesIff` are about |
| `MsgQueue.NextKeeps` | kernel/msg_q.c:128-408 | every call keeps a bounded FIFO; a handed message goes to the first reader, and got messages come in the order of acceptance |
| `MsgQueue.PutKeeps` | kernel/msg_q.c:128-188 | a put keeps the FIFO and the waiters of one kind; a message is handed over only to a reader, the first one, of an empty queue; `PutTells` has the results |
| `MsgQueue.GetKeeps` | kernel/msg_q.c:220-287 | a get keeps both; the message is the oldest one, and only a full queue takes in the message of a blocked writer, the first one |
| `MsgQueue.EveryRunIsAFifo` | kernel/msg_q.c:128-408 | after every run accepted messages are the delivered ones followed by those held, and, with room for a message, the blocked threads are all readers of an empty queue or all writers of a full one |
| `MsgQueue.EveryRunBalances` | kernel/msg_q.c:128-408 | over every run the messages taken in, read off the calls and what they returned, are those given out followed by those held, in order and none lost; and just those threads are blocked that were told so |
| `MsgQueue.PutTells` | kernel/msg_q.c:128-188 | every result of a put with its exact condition: stored as the last message exactly if there is room and nobody waits, handed to the first reader exactly if there is room and one waits, else sent back with nothing changed or blocked in its place by priority |
| `MsgQueue.GetTells` | kernel/msg_q.c:220-287 | every result of a get with its exact condition: the first message exactly if one is held, and then the message of the first blocked writer is the last one held |
| `MsgQueue.ZeroCapacityMixes` | kernel/msg_q.c:128-287 | with room for no message any writer and any reader that may wait block beside each other |
| `MsgQueue.OneKindOfWaiterIff` | kernel/msg_q.c:128-408 | over all runs of puts, gets, purges and timeouts, of any threads, priorities and messages, the blocked threads are of one kind if and only if there is room for a message |
| `MsgQueue.RingPut` | kernel/msg_q.c:156-161 | a message stored at the write pointer joins the ring at its end |
| `MsgQueue.RingGet` | kernel/msg_q.c:235-240 | moving the read pointer on drops the first message |
| `MsgQueue.PeekReadsTheMessageIff` | kernel/msg_q.c:346-356 | the place that the 32-bit offsets lead to is that of the slot if and only if they are not cut off, or are cut off alike, told from the buffer, the read pointer and the index |
| `MsgQueue.SmallBufferFits` | kernel/msg_q.c:346-356 | so it is in every buffer below 4 GiB |
| `MsgQueue.PeekReadsAnother` | kernel/msg_q.c:346-356 | in a buffer of 2^20 + 1 messages of 4 KiB the last one is taken for the first |
| `MsgQueue.MsgQ.StoreMsg` | kernel/msg_q.c:153-161 | on bytes and pointers: the messages held and this one |
| `MsgQueue.MsgQ.TakeMsg` | kernel/msg_q.c:234-240 | on bytes and pointers: the first message, and the others stay |
| `MsgQueue.MsgQ.KMsgqPut` | kernel/msg_q.c:128-188 | the call on bytes and pointers does and returns what the FIFO says that `PutTells` and `EveryRunBalances` are about |
| `MsgQueue.MsgQ.KMsgqGet` | kernel/msg_q.c:220-287 | the call does and returns what the FIFO says, moving the first blocked writer's message in |
| `MsgQueue.MsgQ.KMsgqPeek` | kernel/msg_q.c:301-322 | the first message, or none |
| `MsgQueue.MsgQ.KMsgqPeekAt` | kernel/msg_q.c:335-368 | none beyond the last; else what lies at the place that the 32-bit offsets lead to, if it is inside of the buffer, and message `idx` counted from the first wherever they fit as in `PeekReadsTheMessageIff` |
| `MsgQueue.MsgQ.KMsgqPurge` | kernel/msg_q.c:381-408 | every blocked thread is told in queue order, and nothing is held |
| `Poll.RegisteredNextKeeps` | kernel/poll.c:226-254 | one turn of the registration loop keeps the registered events a prefix and the lists sound |
| `Poll.RegisteredAllKeeps` | kernel/poll.c:299-327 | a thread waits exactly if it still polls and may wait |
| `Poll.SignalledThread` | kernel/poll.c:257-278 | a signal makes the event ready and is seen by a thread that registers; one that waits is woken with the right result |
| `Poll.SignalledKeeps` | kernel/poll.c:431-470 | a signal keeps all lists and threads sound |
| `Poll.ClearedNextKeeps` | kernel/poll.c:169-218 | one turn of the clearing loop unlinks its event and keeps the rest |
| `Poll.ReturnedKeeps` | kernel/poll.c:280-345 | on return no event of the thread has a poller or is on a list, a result of 0 means a ready event and -EINTR a cancelled one |
| `Poll.EveryRunIsSafe` | kernel/poll.c:108-345 | after every interleaving, from threads outside k_poll(): a waiting thread has all its events on their lists, a thread outside k_poll() none, and every list is ordered by priority |
| `Poll.PollTells` | kernel/poll.c:226-327 | what a call comes to, whatever happens while it registers: it waits exactly if it may and neither a condition was found met nor a signal came, returns -EAGAIN exactly if it may not wait and no turn found its condition met, and else goes on to return 0 |
| `Poll.TurnTells` | kernel/poll.c:226-254 | one turn of the loop: a condition that is met makes the event ready and the call return 0; else it is registered exactly if the call may wait and is not decided |
| `Poll.WakingTells` | kernel/poll.c:257-327 | a waiting thread comes to -EAGAIN by its timeout, and by a signal to 0 or -EINTR with its event marked so |
| `Poll.ResultStays` | kernel/poll.c:280-345 | a call keeps its result, whatever happens, until it returns |
| `Poll.Finishes` | kernel/poll.c:169-345 | a call with a result can always finish on its own: it clears what it registered, keeps what was found of its events and returns that result |
| `Poll.SignalDecides` | kernel/poll.c:431-454 | a signal to a thread that is still registering decides its call |
| `Poll.SignalledNeverWaits` | kernel/poll.c:280-345 | from then on, whatever happens, the thread does not wait and goes on to return 0 |
| `Poll.SignalWakesIff` | kernel/poll.c:457-470 | a signal wakes a waiting thread if and only if the first thread on the list waits |
| `Poll.EveryWaiterIsServedInTurn` | kernel/poll.c:257-470 | from every state that a run leads to and over every run from there: a waiting thread keeps waiting, whatever becomes ready, if and only if it does not time out and each signal is taken by another thread; then, for each object that it waits for, the registrations ahead of it at the end, the signals that woke others, those taken in vain by threads that no longer wait, and the registrations cleared ahead of it add up to those ahead at the start and those of higher priority that came in between |
| `Poll.KeepsWaitingIff` | kernel/poll.c:257-278 | the first half, from any sound state |
| `Poll.AheadPended` | kernel/poll.c:108-130 | a new registration gets ahead of a thread exactly if its priority is higher |
| `Poll.PollsAndWaits` | kernel/poll.c:226-327 | a thread that polls one object that is not ready ends up waiting on its list, behind those of its priority |
| `Poll.SignalLostOnTimeout` | kernel/poll.c:257-278 | a run on which a signal is lost on a thread that has timed out and not cleared its registration yet, while another waits on |
| `Poll.PollSystem.constructor` | kernel/poll.c:280-345 | threads start outside k_poll(), and objects with empty lists |
| `Poll.PollSystem.AddEvent` | kernel/poll.c:108-130 | the search from the tail and then from the head is stable insertion by priority |
| `Poll.PollSystem.RegisterNext` | kernel/poll.c:226-254 | ready, registered or passed over, as specified |
| `Poll.PollSystem.EndRegistering` | kernel/poll.c:299-327 | return, -EAGAIN or wait, as specified |
| `Poll.PollSystem.HandleObjPollEvents` | kernel/poll.c:431-470 | the first event of the list is signalled; tells whether there was one |
| `Poll.PollSystem.ClearNext` | kernel/poll.c:169-218 | poller and registration of the event are gone |
| `Poll.PollSystem.Unlink` | kernel/poll.c:203-205 | the event is taken off the list if it is on it |
| `WaitQueue.PendedAt` | kernel/include/priority_q.h:108-120 | a pended thread stands behind everybody of its priority or higher and before the others |
| `WaitQueue.PendedByPriority` | kernel/include/priority_q.h:108-120 | a wait queue stays ordered by priority |
| `PageTables.ModesAreShaped` | arch/x86/gen_mmu.py:281-332 | in all three paging modes every level resolves the next address bits and shares no bits between addresses and flags |
| `PageTables.MaskValues` | arch/x86/gen_mmu.py:281-332 | the address masks of the levels, as numbers of bits from bit 12 up |
| `PageTables.PackedParts` | arch/x86/gen_mmu.py:251-278 | the address and the supported flags of an entry can be read back, for map() and for set_perms() |
| `PageTables.PointerParts` | arch/x86/gen_mmu.py:403-412 | a pointer to a table is present and gives back the table's address |
| `PageTables.IndexInTable` | arch/x86/gen_mmu.py:230-233 | the masked shift is the remainder, and inside the table |
| `PageTables.EveryTableIsLinked` | arch/x86/gen_mmu.py:403-412 | every table has a 4 KiB page of its own and an entry that points to it |
| `PageTables.OneEntryPerTable` | arch/x86/gen_mmu.py:403-412 | no two entries point to the same table |
| `PageTables.WalkFollows` | arch/x86/gen_mmu.py:235-249 | a walk from the top finds exactly the table whose path the address spells |
| `PageTables.GrownFound` | arch/x86/gen_mmu.py:403-412 | a new table only turns a missing table into an empty one, for the addresses below it |
| `PageTables.WroteFound` | arch/x86/gen_mmu.py:251-265 | writing an entry changes what is found for its page and for no other |
| `PageTables.SamePageIs` | arch/x86/gen_mmu.py:230-233 | inside the address space two addresses share an entry if and only if they share a page |
| `PageTables.SameTableIf` | arch/x86/gen_mmu.py:433-448 | addresses inside one step of reserve() share their table |
| `PageTables.MappedRangeHit` | arch/x86/gen_mmu.py:461-484 | a page of a mapped range has the physical address at the same offset and the supported flags, except the NULL page of an identity mapping |
| `PageTables.MappedRangeMiss` | arch/x86/gen_mmu.py:461-484 | any other page keeps what it had |
| `PageTables.ReservedRangeIs` | arch/x86/gen_mmu.py:433-448 | every page of a reserved range has a table afterwards, and no entry changes |
| `PageTables.ReservationGives` | arch/x86/gen_mmu.py:433-448 | a reservation makes exactly the tables that its region touches, empty |
| `PageTables.PermittedRangeKeeps` | arch/x86/gen_mmu.py:513-556 | changing permissions changes no physical address and no page's having a table |
| `PageTables.PermittedRangeHit` | arch/x86/gen_mmu.py:513-556 | the pages of the region, by address, have the supported ones of the new flags; page 0 is left alone |
| `PageTables.PermittedRangeMiss` | arch/x86/gen_mmu.py:513-556 | any other page, by address, keeps its entry |
| `PageTables.LastMappingCounts` | arch/x86/gen_mmu.py:403-556 | over every sequence of calls the last mapping of a page gives its physical address, whatever came before and whatever spares it after; its flags are the supported ones of the last later permission change that covers it, and else those of the mapping |
| `PageTables.MapsAtOffset` | arch/x86/gen_mmu.py:461-484 | a mapping without a virtual address maps each page to itself, one with a virtual address to the physical page at the same offset, with the supported flags; only the NULL page is left out, of the first kind |
| `PageTables.NeverMapped` | arch/x86/gen_mmu.py:433-556 | a page that no call maps has the physical address 0, and the supported ones of the flags last given to it once it had a table |
| `PageTables.GivenFlagsDecide` | arch/x86/gen_mmu.py:513-556 | over every sequence of calls such a page is present if and only if the flags last given to it, once it had a table, say so |
| `PageTables.NeverMappedPresentIff` | arch/x86/gen_mmu.py:513-556 | in a build that nothing stops such a page is present if and only if the last permission change that covers it asks for that, as read off the calls |
| `PageTables.AcceptedHasTable` | arch/x86/gen_mmu.py:546-553 | a permission change that is not refused finds a table for every page that it covers, at any address of the page |
| `PageTables.ReservedPageBecomesPresent` | arch/x86/gen_mmu.py:513-556 | a page that was only reserved maps physical page 0 after a permission change with the present flag |
| `PageTables.PtableSet.constructor` | arch/x86/gen_mmu.py:338-351 | nothing is mapped and no table exists |
| `PageTables.PtableSet.NewChildTable` | arch/x86/gen_mmu.py:403-412 | one table at the next free page, linked; what is found changes as `GrownFound` says |
| `PageTables.PtableSet.MapPage` | arch/x86/gen_mmu.py:414-431 | for every address: what the flat map has after mapping or reserving one page |
| `PageTables.PtableSet.DescendTo` | arch/x86/gen_mmu.py:414-427 | ends at the table that holds the page's entry, making the ones that are missing |
| `PageTables.PtableSet.Map` | arch/x86/gen_mmu.py:461-484 | refused exactly if unaligned, unchanged then; else for every address what the flat map has after the range |
| `PageTables.PtableSet.Reserve` | arch/x86/gen_mmu.py:433-448 | refused exactly if unaligned, unchanged then; else every address has what the flat map has after the reservation |
| `PageTables.PtableSet.TableOf` | arch/x86/gen_mmu.py:550-552 | the walk stops at a missing key exactly if the page has no table |
| `PageTables.PtableSet.SetPagePerms` | arch/x86/gen_mmu.py:546-553 | the flags of one page change, or nothing if it has no table |
| `PageTables.PtableSet.SetRegionPerms` | arch/x86/gen_mmu.py:513-556 | fails exactly on bad alignment or a page, other than page 0, without a table; else every address has what the flat map has after the change |
| `PageTables.PtableSet.Build` | arch/x86/gen_mmu.py:403-556 | over every sequence of map, reserve and permission calls: the walk of every address ends in what the flat map says, and the build stops exactly at a call that is unaligned or asks for the flags of a page without a table |
| `ModuleSort.TurnKeeps` | scripts/zephyr_module.py:779-791 | one turn of the loop keeps what each module still depends on exact, and the order of the sorted ones |
| `ModuleSort.EmptyIsOrder` | scripts/zephyr_module.py:793-801 | with nothing left over all modules are in order and could be sorted |
| `ModuleSort.StuckIsUnresolvable` | scripts/zephyr_module.py:793-799 | with something left over there is a repeated or missing dependency or a cycle |
| `ModuleSort.ClosedHasCycle` | scripts/zephyr_module.py:793-799 | modules that all depend on one another contain a cycle |
| `ModuleSort.OrderHasNoCycle` | scripts/zephyr_module.py:777-801 | modules in order contain no cycle |
| `ModuleSort.RepeatedStays` | scripts/zephyr_module.py:785-786 | a dependency listed twice is never taken off completely |
| `ModuleSort.RepeatedDependencyFails` | scripts/zephyr_module.py:785-799 | such a list is refused although it is met and free of cycles |
| `ModuleSort.Classify` | scripts/zephyr_module.py:771-775 | modules without dependencies can start, the others have theirs left |
| `ModuleSort.TakeOff` | scripts/zephyr_module.py:783-789 | the sorted module is taken off everybody's dependencies, and those without any left are freed |
| `ModuleSort.RemoveAll` | scripts/zephyr_module.py:790-791 | exactly the freed modules leave the list |
| `ModuleSort.ParseModules` | scripts/zephyr_module.py:771-801 | terminates, and succeeds if and only if every dependency is listed once, exists and is in no cycle; then all modules come once, each after everything it depends on |
| `Idt.AssignKeeps` | arch/x86/gen_idt.py:154-155 | one more entry with its vector keeps vectors and lines distinct and the map in agreement |
| `Idt.BalancedNext` | arch/x86/gen_idt.py:162-173 | serving an entry takes one free vector from its priority's range and none from another's |
| `Idt.Overfull` | arch/x86/gen_idt.py:169-170 | a full range means more entries of that priority than vectors nobody asked for |
| `Idt.UpdateIrqVecMap` | arch/x86/gen_idt.py:118-133 | refuses a line that is too large or mapped already, else maps it |
| `Idt.PlaceExplicit` | arch/x86/gen_idt.py:140-155 | explicit vectors as asked for, or an error that the list deserves |
| `Idt.FindFree` | arch/x86/gen_idt.py:162-167 | the lowest free vector of the priority's range, none exactly if there is none |
| `Idt.PlaceByPriority` | arch/x86/gen_idt.py:157-173 | every other entry in its priority's range, or an error that the list deserves |
| `Idt.FillSpurious` | arch/x86/gen_idt.py:175-187 | free vectors get the spurious handler of their kind |
| `Idt.SetupIdt` | arch/x86/gen_idt.py:136-187 | succeeds if and only if the list is well formed and no priority has more entries than vectors; then vectors are distinct and as asked or in range, lines are mapped to them, all else is spurious and unmapped; on a well-formed list the only error is too many entries of a priority |

## Left out

- Timeout: announcing on several processors at once, the 32-bit tick configuration and the programming of the hardware timer.
- Timeout.TimeoutQueue.AddTimeout: ticks do not wrap around at 64 bits.
- Timeout.TimeoutQueue.SysClockAnnounce: callbacks only add and abort timeouts; they do not announce.
- Pipes: allocation and cleanup of buffers, poll events, and the object and tracing hooks. Counts do not wrap around.
- Pipes.FlushDropsEverything: for at most 2^32 - 1 readable bytes, the most that the flush asks for.
- StreamPipe: the configuration with incoherent stacks, which wakes readers instead of copying to them, and poll events. The ring buffer is a sequence, without its indices.
- Work: the semaphores and threads of flushers, cancellers and drainers are counted, not run; the queue's yield and the thread names are left out.
- Paging: CONFIG_DEMAND_PAGING_ALLOW_IRQ, statistics, mappings of given physical addresses, the linker sections that are pinned apart from the image, and the choice of victims and of backing store slots, which are parameters bound by what the source demands of them.
- VirtRegion: a page size of 4096 bytes, and no CONFIG_KERNEL_DIRECT_MAP; `sys_bitarray` is modelled by its bits, not by its bundles.
- VirtRegion.VirtRegions.VirtRegionAlloc: sizes and alignments are whole pages, as all callers pass them.
- Mutexes: threads that use several mutexes at once, whose priority a single original priority cannot restore; changes of priority from outside; the width of the lock count.
- MsgQueue.MsgQ.constructor: queues for no messages, for which `MsgQueue.ZeroCapacityMixes` shows what goes wrong.
- Poll: triggered work, and events that several calls share. The ready conditions of objects change at any time; which bit an object sets is not told apart.
- PageTables: is_mapped() and is_region_mapped(), whose depth test never succeeds, sets that mix large and small pages, and the binary output. Sets that map at a level above the last, where map() does not skip the NULL page and reserve() steps by the same level as ever, are left out too.
- PageTables.PtableSet.MapPage: the addresses of new tables must fit into an entry; the source does not check this.
- ModuleSort: reading the module files, and modules of the same name, of which the dictionary keeps the last.
- Idt: the encoding of gates and the bitmap of dynamic vectors.
- Idt.SetupIdt: interrupt lines only on vectors from 32 up, as the source states, and no numbers below -1.
- Everything else of the repository: drivers, subsystems, other architectures, and the parts of the kernel that would add only easy members, such as semaphores, queues, timers and memory slabs.

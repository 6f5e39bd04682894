# Verified core of the dufay kernel

A Dafny model of five parts of the dufay microkernel, with proofs of what they keep over every run.

* **Waiting and signalling** (`kernel/core/wait.c` with its clients `mutex.c`, `semaphore.c` and `timer.c`).
  `WaitProtocol` is a state machine whose steps are the single accesses to shared memory of any number of
  waiting threads and signallers: publishing a waitblock, the compare-and-swaps on the status word, the
  signaller's three cases, its later store into the waitblock, the timer. `WaitInvariant` proves one invariant
  over all interleavings in which no wait leaves a waitblock behind, `WaitTheorems` draws the consequences and
  says exactly which returns do leave one behind, `WaitOne` separates `wait_one` from `wait_any`, `PollRuns` has
  the runs of polls that go wrong, `Timeouts` treats timers and what a wait returns, `WaitMutex` the mutex and
  `MutexOwner` its owner, and `Dispatcher` is the loop of `try_satisfy_dispatch_object` as code.
* **amd64 page tables** (`kernel/arch/amd64/paging.c`). `PageEntry` has the bits of an entry and of an address,
  `PageTables` the table graph and the meaning of an address, `Pmap` the refinement of an abstract map,
  `AddressSpace` the same on 64-bit addresses, `Mmu` the walks as code.
* **The slab allocator** (`kernel/mm/slab.c`). `SlabGeometry` has the layout of a slab, `SlabCache` the magazines,
  `SlabLayer` the slabs, `SlabLinks` their free lists in memory, `KmemCache` the refinement of a plain set of
  objects and the alloc and free loops, `SlabRuns` the lists in memory over whole runs.
* **The ULE scheduler** (`kernel/core/sched/ule.c`). `RunQueues` and `ThreadSelect` have the queues and what is
  picked from them, `CpuRuns` the runs on one CPU with a switch split where the code holds no lock, `BootRuns` the
  runs from boot that go wrong, `Calendar` the calendar queue, `LoadBalance` the balancer, `Interactivity` the
  arithmetic, `Scheduler` the scans as code.
* **The page bitmap** (`kernel/mm/physical.c`). `Physical` has the search and the runs, `PageAllocator` the loops.

`Common` holds what they share. Everything is proved for any number of threads, objects, CPUs, tables and pages.

## How the model reads the code

* A weak compare-and-swap is taken as a strong one; `sched_wait` and `sched_wake` consume and produce a wake
  token of the thread. A panic ends a run in a `Panicked` halt; the removal of a waitblock that is on no queue and
  the insertion of one that is on a queue end it in a `Corrupt` halt. So "never halts" is a statement about runs.
* A run is tidy if no wait returns while a waitblock of it is on a queue or in a signaller's hands. Only a poll can
  be untidy: it returns without taking its objects' locks (`WaitTheorems.UntidyReturns`, `NoPollsTidy`).
* The deadline of a timer is compared with one clock that only moves forward, and the removal of a due timer
  from its heap, its change of state and the lock are one step. The heap itself is a set.
* `pml5_supported` and `gib_pages_supported` are arbitrary constants. `pmm_alloc` supplies fresh, zeroed pages.
* `ALIGN_UP` and `DIV_ROUNDUP` are arithmetic, which is what they compute for powers of two; the header
  `aria/base.h` is not part of this model. A slab header takes 32 bytes.
* Run and sleep times, tick counts and `priority` have the width they have in the kernel and wrap where it does.
  Loads, addresses and page indices are natural numbers.
* A status word of a run queue is a sequence of 64 bits.

## Where the code and what it says about itself differ

* `kernel/core/wait.h` says that a wait with timeout 0 returns immediately. One that finds nothing panics:
  `WaitTheorems.CheckPanics`.
  A poll that is satisfied late returns -1 although it consumed the signal: `WaitTheorems.BackOutReturns`. If it
  returns before its signaller has stored into its waitblock, the store hits the thread's next wait, which can then
  panic with two satisfiers; if it polled several objects, its other waitblocks stay queued. The exact condition is
  `WaitTheorems.UntidyReturns`; the runs are `PollRuns.PollPanics`, `LatePollReturns`, `LatePollPanics` and
  `PollLeavesBlock`.
* The early removal loop of `wait_any` can unlink a waitblock that a signaller has already taken. `BackOutCorrupts`
  gives the exact condition, `WaitAnyCanCorrupt` a run, and `WaitOneNeverHalts` shows that `wait_one` is not affected.
* A comment in `pick_realtime_thread` says that higher priorities are searched first. The lowest eligible priority
  is picked: `ThreadSelect.PicksLowest`; `HighestFirst` says when that makes no difference, `BootRuns.LowerPicked`
  is a run.
* A comment in `calendar_queue_increment` promises an insert index that is always one ahead. `Calendar.GapFromBoot`
  says for every run from boot when it is, and when insertions keep clear of the queue being run; `BehindFromBoot` is a
  run in which neither holds.
* The more a thread runs the lower its priority, says `sched_recompute_priority`. The 8-bit field wraps before it is
  clamped: `Interactivity.BatchPriorityIs` is the exact condition, `WrapTurnsOrder` an instance.
* `interactive_score` is a penalty for running. It falls with sleep and grows with run time for threads that sleep
  longer than they run (`Interactivity.SleepersOrdered`); among the others it is the other way round (`RunnersTurned`,
  `RunnerBeatsBalanced`).
* The clamp of run and sleep time does not bound them when their sum wraps, which a wake-up on a CPU with a clock
  that is behind brings about: `Interactivity.ClampBounds`, `ClockBehind`.
* A free-list link can reach into the next buffer of a slab with a small alignment, and then the list is lost as soon
  as it is built: `SlabGeometry.LayoutFits` has the sizes and alignments, `SlabLinks.ListInMemory` the list.
* A slab is created without a lock, and its colour is read twice: `SlabGeometry.TornColor`, `TornColorOverlaps`.
* `sched_switch` clears `next_thread` without the lock of the queues, and `sched_reschedule` overwrites it. So a thread
  that is in the slot is dropped, also one that another CPU put there after the yielding thread released the lock, and
  one that another CPU displaced from the slot after `dispatch_dpc` had read it runs and is queued at once.
  `CpuRuns.SwitchConserves` and `RescheduleConserves` say exactly when no thread is lost or doubled; `BootRuns.YieldLoses`,
  `YieldRaces`, `SlotDoubles` and `TickLoses` are runs.

## Model

| member | source | states |
|---|---|---|
| `WaitInvariant.StepKeeps` | kernel/core/wait.c:38-232 | every tidy step of every waiter, signaller and timer keeps the invariant that links status words, waitblocks, queues, locks and timers |
| `WaitInvariant.RunKeeps` | kernel/core/wait.c:38-232 | the invariant holds after every tidy run from an initial state |
| `WaitInvariant.SweepUnlinks` | kernel/core/wait.c:148-153 | in the final loop a waitblock that is still active is on its object's queue once the lock is held |
| `WaitTheorems.TidyExactly` | kernel/core/wait.c:91-114 | a step keeps the invariant exactly if it is not a return that leaves a waitblock behind |
| `WaitTheorems.UntidyReturns` | kernel/core/wait.c:91-114 | a return leaves one behind exactly if it is that of a poll satisfied after its probes and one of its waitblocks is still active |
| `WaitTheorems.NoPollsTidy` | kernel/core/wait.c:38-232 | every run without polls is tidy, so that the statements about tidy runs are about all of them |
| `WaitTheorems.OneSatisfier` | kernel/core/wait.c:140-169 | in every state that a tidy run reaches a wait was satisfied at most once, has at most one signaled waitblock, and was woken at most once and only after committing |
| `WaitTheorems.StatusMoves` | kernel/core/wait.c:50-223 | the status word only moves from in progress, over committed, to satisfied, and says which agent makes each move and when a thread is woken |
| `WaitTheorems.ThreeCases` | kernel/core/wait.c:196-223 | after two failed swaps the wait is satisfied, so the signaller's three cases are exhaustive |
| `WaitTheorems.SweepNeverHalts` | kernel/core/wait.c:140-169 | the final loop never reaches the multiple-satisfiers panic and never unlinks a waitblock twice |
| `WaitTheorems.CheckPanics` | kernel/core/wait.c:92-97 | the early panic is reached exactly by a poll, of any number of objects, that nobody satisfied |
| `WaitTheorems.BackOutCorrupts` | kernel/core/wait.c:99-108 | the early removal loop unlinks a waitblock that is on no queue exactly if that waitblock is no longer active |
| `WaitTheorems.NoLostWakeup` | kernel/core/wait.c:65-88 | an object whose lock is free and that holds a signal has an empty queue and no committed sleeper |
| `WaitTheorems.SleeperIsLinked` | kernel/core/wait.c:126-129 | a committed thread is linked to every object it waits for |
| `WaitTheorems.CleanReturn` | kernel/core/wait.c:131-175 | after a tidy run a thread that is not waiting is on no queue and in no signaller's hands, also not for a store still to come, and its stack timer is stopped, unlocked and in no heap |
| `WaitTheorems.SweepReturns` | kernel/core/wait.c:139-174 | the result is the index of the one object that satisfied the wait, or -1 exactly if that was the timer, which then is due |
| `WaitTheorems.BackOutReturns` | kernel/core/wait.c:91-114 | what an early return yields, and that it is -1 exactly for a poll that was satisfied after its probes |
| `WaitTheorems.SemaphoreConserves` | kernel/core/semaphore.c:6-26 | in every run, tidy or not, initial count plus releases is the count plus the waits satisfied, and the count is never negative |
| `WaitTheorems.SpentByWinner` | kernel/core/wait.c:22-32 | in every step an object pays one signal for the wait it satisfies, or satisfies none and keeps its signals, also if a timeout satisfies the wait |
| `WaitOne.WaitOneNeverHalts` | kernel/core/wait.c:177-180 | over every run of single-object waits without polls nothing panics and no queue is corrupted |
| `WaitOne.TidyPollsNeverCorrupt` | kernel/core/wait.c:177-180 | with polls, over every tidy run, no queue is corrupted |
| `WaitOne.WaitAnyCanCorrupt` | kernel/core/wait.c:99-108 | a two-object wait reaches a state in which the early removal loop unlinks a waitblock twice |
| `PollRuns.PollPanics` | kernel/core/semaphore.c:12-15 | a poll of an empty semaphore panics |
| `PollRuns.LatePollReturns` | kernel/core/wait.c:91-114 | a poll that consumed a signal returns -1 |
| `PollRuns.LatePollPanics` | kernel/core/wait.c:160-165 | after a poll that returned before its signaller's store, a timed wait finds two signaled waitblocks and panics, with its first one still queued |
| `PollRuns.PollLeavesBlock` | kernel/core/wait.c:99-113 | a poll of two objects returns with its second waitblock still queued |
| `Timeouts.ExpiresExactly` | kernel/core/timer.c:31-54 | over every run from the start of a stopped timer in which it is neither stopped nor expires, it can expire exactly from `ns` after the start on, and further starts make no difference |
| `Timeouts.TimeoutExpiresExactly` | kernel/core/wait.c:116-124 | the same for the timer of a wait, from the time it is armed |
| `Timeouts.StoppedNeverExpires` | kernel/core/timer.c:67-91 | over every run in which it is not started again, a timer that was stopped or disarmed or has expired does not expire |
| `Timeouts.NoEarlyTimeout` | kernel/core/wait.c:116-174 | over every tidy run a wait that returns -1 through its final loop does so no earlier than its timeout after its timer was armed |
| `Timeouts.WaitReturns` | kernel/core/wait.c:38-175 | from the call of a wait to its return through the final loop, over every tidy run: the result is the position, in the caller's list, of the object that satisfied the wait, or it is -1, the caller gave a finite timeout and that much time has gone by |
| `WaitMutex.StepGood` | kernel/core/mutex.c:6-28 | every step of disciplined clients keeps the mutex invariant and moves its queue by at most one thread |
| `WaitMutex.MutualExclusion` | kernel/core/mutex.c:6-28 | over every tidy run the signal and the holders add up to one, one plus the unlocks is the signal plus the locks granted, `mutex_lock` returns only to the holder, and `owner` then names the holder |
| `WaitMutex.FifoHandOff` | kernel/core/wait.c:182-232 | over every tidy run a waiter at position k is granted the mutex by the (k+1)-th unlock and is never overtaken |
| `WaitMutex.UnlocksToGo` | kernel/core/mutex.c:19-28 | the same between two states in which nobody is unlocking, counted in unlocks |
| `WaitMutex.GrantsFollowArrivals` | kernel/core/wait.c:81-86 | the order of grants through the queue is the order of arrival |
| `MutexOwner.OwnerNamesHolder` | kernel/core/mutex.c:12-28 | over every tidy run of disciplined clients, once the mutex was unlocked and while nobody is unlocking it, `owner` is the one holder or nobody, and nobody if there is no holder |
| `MutexOwner.UnlockHandsOver` | kernel/core/mutex.c:19-28 | when an unlock releases the lock, whatever happened meanwhile, it has made one grant and that thread is holder and owner, or none and there is neither |
| `Dispatcher.Kernel.Take` | kernel/core/wait.c:182-232 | one access to shared memory is one step of the protocol and keeps the invariant |
| `Dispatcher.Kernel.Decide` | kernel/core/wait.c:202-219 | the two swaps and the load satisfy an open wait through this waitblock, or leave all threads alone |
| `Dispatcher.Kernel.Settle` | kernel/core/wait.c:205-222 | the store that follows changes no status |
| `Dispatcher.Kernel.SatisfyFirst` | kernel/core/wait.c:187-228 | one iteration takes the first waitblock and resolves it by one of the three cases |
| `Dispatcher.Kernel.TrySatisfy` | kernel/core/wait.c:182-232 | the loop gives a synchronization object's signal to the first wait still open and returns its thread, and satisfies every wait of a notification object |
| `PageEntry.EntryRoundTrip` | kernel/arch/amd64/paging.c:42-76 | frame address and protection survive the round trip through an entry |
| `PageEntry.EntryLarge` | kernel/arch/amd64/paging.c:42-60 | the entry of a page-aligned frame has PS exactly if a page of more than 4 KiB is asked for |
| `PageEntry.EntryGlobal` | kernel/arch/amd64/paging.c:42-60 | and G exactly if a global one is |
| `PageEntry.DecodeLeaf` | kernel/arch/amd64/paging.c:42-60 | a leaf entry has the frame's address and exactly the requested rights |
| `PageEntry.DecodeTable` | kernel/arch/amd64/paging.c:87-97 | a table entry is present, writable, user, executable and no leaf |
| `PageEntry.SamePage` | kernel/arch/amd64/paging.c:29-40 | two addresses share an entry of level 1, 2 or 3 exactly if they lie in the same 4 KiB, 2 MiB or 1 GiB page, with four levels and with five |
| `PageEntry.UpperHalf` | kernel/arch/amd64/paging.c:29-40 | an address belongs to the upper half of a root exactly if bit 47, or 56 with five levels, is set |
| `PageTables.MeetAtTable` | kernel/arch/amd64/paging.c:78-103 | two walks meet in a table only if they used the same entries to get there |
| `PageTables.CoveredTable` | kernel/arch/amd64/paging.c:349-368 | two walks that use the same upper-half entries meet, from any two roots |
| `PageTables.WriteLeaf` | kernel/arch/amd64/paging.c:105-142 | writing a leaf entry changes the meaning of exactly the addresses that share the entry, in all roots that reach it |
| `PageTables.AddTableInvisible` | kernel/arch/amd64/paging.c:78-103 | a new table changes the meaning of no address in any root |
| `Pmap.HistoryRefines` | kernel/arch/amd64/paging.c:105-191 | any history of map, unmap and new root means, for every root and address, what the abstract map says |
| `Pmap.KernelHalfShared` | kernel/arch/amd64/paging.c:349-368 | all roots translate every upper-half address alike |
| `Pmap.KernelHalfFixed` | kernel/arch/amd64/paging.c:330-347 | no history changes the upper 256 entries of any root |
| `Pmap.RightsOfLeaf` | kernel/arch/amd64/paging.c:87-97 | the rights along a walk are those of its leaf |
| `Pmap.MapThenLookup` | kernel/arch/amd64/paging.c:105-142 | a mapped page is found with the given frame and protection, at level 3 exactly for a huge page where the processor has them, at level 1 exactly without either flag, and with PS exactly above level 1 |
| `AddressSpace.MapAddresses` | kernel/arch/amd64/paging.c:105-142 | mapping gives every 64-bit address of the page the new meaning, in its root or in all roots for the upper half, and changes no other |
| `AddressSpace.MapPages` | kernel/arch/amd64/paging.c:105-142 | on addresses and flags: exactly the addresses of the 1 GiB, 2 MiB or 4 KiB page that the flags ask for get the frame, the level of that size and the rights |
| `AddressSpace.UnmapAddresses` | kernel/arch/amd64/paging.c:144-191 | unmapping leaves the page an address was mapped by without a meaning and changes no other address |
| `Mmu.PageTable.constructor` | kernel/arch/amd64/paging.c:330-347 | booting makes one root with a preallocated upper half that maps nothing |
| `Mmu.PageTable.New` | kernel/arch/amd64/paging.c:349-368 | a new root shares the upper half, maps nothing below, and no other root notices |
| `Mmu.PageTable.DescendTable` | kernel/arch/amd64/paging.c:78-103 | a present entry is followed whatever it is; a missing one is filled with a fresh table only if asked |
| `Mmu.PageTable.Map` | kernel/arch/amd64/paging.c:105-142 | the walk and the write are one map operation of the abstract map, and every address of every root means what `MapPages` says |
| `Mmu.PageTable.Unmap` | kernel/arch/amd64/paging.c:144-191 | the walk and the write are one unmap operation, which does nothing if nothing is mapped |
| `Mmu.PageTable.Translate` | kernel/arch/amd64/paging.c:193-260 | 0 with frame, page kind and protection of the leaf, or -1 exactly if nothing is mapped |
| `SlabGeometry.LayoutFits` | kernel/mm/slab.c:606-624 | a chunk holds an object, is a multiple of the alignment and exceeds the object by less than the alignment and the size of a link, and the link lies inside it exactly if the alignment is 0 or at least 8 or the size exceeds the last multiple of the alignment below 8 |
| `SlabGeometry.SmallChunkOverlaps` | kernel/mm/slab.c:606-617 | with size and alignment 4 the link lies over the next buffer |
| `SlabGeometry.ColoringIsFree` | kernel/mm/slab.c:75-86 | the colour stays a multiple of the alignment and at most the maximum, and never costs a buffer |
| `SlabGeometry.ColorsCycle` | kernel/mm/slab.c:71-79 | the colours follow each other in steps of the alignment up to the maximum and start again at 0 |
| `SlabGeometry.TornColor` | kernel/mm/slab.c:85-90 | whatever the two reads of the colour yield, the buffers stay clear of the header exactly if the first leaves room in the page and the second exceeds the maximum by no more than the chunks that the first has cost |
| `SlabGeometry.TornColorOverlaps` | kernel/mm/slab.c:75-90 | objects of 24 bytes, where another CPU's addition makes the last buffer overlap the header |
| `SlabGeometry.BufferInPage` | kernel/mm/slab.c:81-99 | a buffer is aligned, lies in its page clear of the header, and leads back to its slab |
| `SlabGeometry.BuffersDisjoint` | kernel/mm/slab.c:92-99 | buffers of a slab do not overlap |
| `SlabGeometry.PagesDisjoint` | kernel/mm/slab.c:65-107 | buffers of different slabs do not overlap |
| `SlabCache.ExactlyOnePlace` | kernel/mm/slab.c:227-424 | an object is handed out, in one magazine or on its slab's free list, and nowhere else |
| `SlabCache.SlabBalance` | kernel/mm/slab.c:295-302 | buffers in use plus free ones are the capacity of a slab, and it is on the full list exactly if none is free |
| `SlabCache.PopKeeps` | kernel/mm/slab.c:234-273 | a round popped from the loaded magazine was not handed out, and the invariant is kept |
| `SlabCache.PushKeeps` | kernel/mm/slab.c:321-329 | a freed object goes into the loaded magazine within its bounds, and only it leaves the live objects |
| `SlabCache.ExchangeKeeps` | kernel/mm/slab.c:177-184 | exchanging the magazines of a CPU keeps the previous one absent, empty or full |
| `SlabCache.InstallFullKeeps` | kernel/mm/slab.c:254-267 | loading a full magazine from the depot keeps the shape of all magazines and lists |
| `SlabCache.InstallEmptyKeeps` | kernel/mm/slab.c:338-350 | so does loading an empty one |
| `SlabCache.AddMagazineKeeps` | kernel/mm/slab.c:352-366 | a new magazine joins the empty list |
| `SlabLayer.FreshSlab` | kernel/mm/slab.c:92-104 | the loop that builds a slab links as many buffers as it runs, each once |
| `SlabLayer.GrowKeeps` | kernel/mm/slab.c:65-107 | a new slab, created in one step, keeps the invariant and hands nothing out |
| `SlabLayer.TakeKeeps` | kernel/mm/slab.c:295-309 | taking the first free buffer of a slab hands out exactly that buffer and keeps each slab on the full list exactly if its free list is empty |
| `SlabLayer.PutKeeps` | kernel/mm/slab.c:398-421 | putting a buffer back takes exactly that buffer from the live objects |
| `SlabLayer.ReclaimKeeps` | kernel/mm/slab.c:398-421 | a slab is given back only when all its buffers are free |
| `SlabLinks.BuildList` | kernel/mm/slab.c:92-104 | the loop leaves links that visit every buffer once, last one first, exactly if a chunk has at least eight bytes or there is at most one buffer |
| `SlabLinks.ListInMemory` | kernel/mm/slab.c:92-104 | the same of the recursive form of the loop that the other statements about lists use |
| `SlabLinks.GrowLists` | kernel/mm/slab.c:65-107 | building a slab's list spoils no other slab's list |
| `SlabLinks.TakeLists` | kernel/mm/slab.c:295-309 | the buffer taken is the one its list head points at, and the lists in memory remain those of the model |
| `SlabLinks.PutLists` | kernel/mm/slab.c:398-412 | the link written into a freed buffer spoils no list, and the lists in memory remain those of the model |
| `SlabLinks.UseKeepsLists` | kernel/mm/slab.c:308-313 | whatever the owner writes into its object, no list is spoilt |
| `KmemCache.StepRefines` | kernel/mm/slab.c:227-424 | every step of every CPU keeps the invariant, with magazines, depot lists and slabs in shape, and is a move of a plain set allocator |
| `KmemCache.EmptySlabGoes` | kernel/mm/slab.c:405-421 | an object that goes back leaves its slab in place exactly if another object of the slab is outside the free list; otherwise the slab and all its buffers go, and no other slab does |
| `KmemCache.LastInFirstOut` | kernel/mm/slab.c:186-408 | a full slab that gets an object back is the next to be used, with that object first, a new slab is the last, and the magazine a CPU retires is the next of its list |
| `KmemCache.CacheRefinesSet` | kernel/mm/slab.c:227-424 | over every interleaving the layers refine the set allocator: no object is handed out twice and none is lost |
| `KmemCache.RunColors` | kernel/mm/slab.c:71-79 | over every interleaving the n-th slab gets the n-th colour of the cycle |
| `SlabRuns.MoveLists` | kernel/mm/slab.c:65-424 | every step of every CPU, every write of an owner into its object and every write into another page keeps the lists in memory those of the model, and every pointer followed leads to the buffer the model takes |
| `SlabRuns.ListsFromCreation` | kernel/mm/slab.c:65-424 | the same in every state of every run from the creation of the cache on, whatever the memory holds |
| `KmemCache.Kmem.constructor` | kernel/mm/slab.c:585-664 | a cache created with room for the link satisfies the invariant and has handed out nothing |
| `KmemCache.Kmem.Unstash` | kernel/mm/slab.c:234-274 | the retry loop ends, with an object that was not live and now is, the last one put into the loaded magazine if that has one, or with both magazines and the depot out of rounds and nothing handed out |
| `KmemCache.Kmem.Alloc` | kernel/mm/slab.c:227-314 | the result was not live and now is, whichever layer it comes from, and is the object freed last on this CPU if the loaded magazine holds it |
| `KmemCache.Kmem.FromSlab` | kernel/mm/slab.c:277-313 | the object comes from the first slab with a free buffer, or from the new one if there is none |
| `KmemCache.Kmem.Stash` | kernel/mm/slab.c:316-372 | the retry loop ends, with the object on top of the loaded magazine if there was room or a spare magazine |
| `KmemCache.Kmem.Free` | kernel/mm/slab.c:316-424 | exactly the freed object leaves the live set |
| `RunQueues.InsertOk` | kernel/core/sched/ule.c:226-246 | insertion adds one thread and keeps bitmap, queues and load in agreement |
| `RunQueues.InsertPlaces` | kernel/core/sched/ule.c:185-246 | a realtime or interactive thread goes behind the others of its priority, a timeshared one into the calendar as many queues after the insert index as its priority is below the highest, an idle one behind the idle ones, and nothing else moves |
| `RunQueues.UnlinkOk` | kernel/core/sched/ule.c:54-78 | taking a thread off a queue removes that thread only and clears the bit exactly of an emptied queue |
| `ThreadSelect.SelectOk` | kernel/core/sched/ule.c:477-518 | selection removes exactly the thread it returns, keeps the agreement, lowers the load by one, and never returns a pinned thread for migration |
| `ThreadSelect.SelectFails` | kernel/core/sched/ule.c:477-518 | for any current thread, selection fails exactly if the queues have nothing to run instead of it |
| `ThreadSelect.SelectBest` | kernel/core/sched/ule.c:477-518 | what selection takes is the first thread of the lowest realtime queue from the current priority on, without any the first timeshared thread around from the run index, without any the first idle one, each only where the current thread gives way to its class |
| `ThreadSelect.SelectFindsWork` | kernel/core/sched/ule.c:477-518 | without migration that is exactly if nothing is queued, which is exactly if the load is 0 |
| `ThreadSelect.PicksLowest` | kernel/core/sched/ule.c:40-84 | the realtime thread picked has the lowest eligible priority |
| `ThreadSelect.HighestFirst` | kernel/core/sched/ule.c:51-52 | the highest eligible priority comes first exactly if all eligible threads share it |
| `ThreadSelect.TryPreemptOk` | kernel/core/sched/ule.c:385-411 | exactly one thread is added to the queues and the next slot together, and when the load grows |
| `ThreadSelect.PreemptsWhom` | kernel/core/sched/ule.c:358-411 | who goes into the slot: anybody on an idle CPU, an interactive thread over a timeshared one, a thread of realtime priority over any lower one, and nobody else |
| `CpuRuns.StepInv` | kernel/core/sched/ule.c:226-518 | readying and stealing by other CPUs, a tick, and each part of a switch keep the agreement of bitmap, queues, load and slot |
| `CpuRuns.SwitchConserves` | kernel/core/sched/ule.c:457-475 | a switch loses no thread and doubles none exactly if the slot it clears is empty or, if the thread switched to was read from the slot, still holds that thread |
| `CpuRuns.RescheduleConserves` | kernel/core/sched/ule.c:651-656 | a tick loses no thread exactly if `next_thread` is empty or the queues have nothing to run instead of the current thread |
| `CpuRuns.StepConserves` | kernel/core/sched/ule.c:226-518 | every other step loses no thread and doubles none, so that a step conserves the threads exactly under these two conditions |
| `CpuRuns.StepAccounted` | kernel/core/sched/ule.c:226-518 | from a state in which every thread handed over is queued, in the slot, being switched to or gone, once, a step leads to another such state exactly under these conditions |
| `CpuRuns.RunInv` | kernel/core/sched/ule.c:226-518 | over every run bitmap, queues, load and slot agree |
| `CpuRuns.RunAccounted` | kernel/core/sched/ule.c:226-518 | over every run whose ticks and switches meet these conditions, each thread handed over is queued, in the slot, being switched to or gone, once |
| `CpuRuns.StepPicks` | kernel/core/sched/ule.c:624-786 | a yield, a tick and a stealing CPU take the thread of `SelectBest`; a yield goes idle and a tick leaves the slot alone exactly if there is none |
| `CpuRuns.PreemptsRunning` | kernel/core/sched/ule.c:457-475 | over every run from the switch to a thread until the next switch, a readied thread goes ahead of it as the priorities and the interactivity of the two say |
| `CpuRuns.BootAccounted` | kernel/core/sched/ule.c:687-718 | the state after `sched_cpu_init` is such a state |
| `BootRuns.YieldLoses` | kernel/core/sched/ule.c:766-786 | a run from boot in which a thread yields while another is in the slot, and that one is lost |
| `BootRuns.YieldRaces` | kernel/core/sched/ule.c:766-786 | a run in which the slot is empty when a thread yields, another CPU fills it after the lock is released, and the thread in it is lost |
| `BootRuns.SlotDoubles` | kernel/core/ipl.c:84-86 | a run in which another CPU replaces the thread that was read from the slot: the first runs and is queued, the second is lost |
| `BootRuns.TickLoses` | kernel/core/sched/ule.c:651-656 | a run in which a tick finds a queued thread and overwrites the one in the slot, which is lost |
| `BootRuns.LowerPicked` | kernel/core/sched/ule.c:40-84 | a run after which two realtime threads may be taken and the one of lower priority is |
| `Calendar.GapMoves` | kernel/core/sched/ule.c:27-38 | how emptying a queue and a tick change the distance of the two indices, for every distance |
| `Calendar.StepAhead` | kernel/core/sched/ule.c:631-639 | an insert index one ahead stays one ahead in every step, and a tick puts it there from equal indices |
| `Calendar.RunAhead` | kernel/core/sched/ule.c:27-38 | the same over every run |
| `Calendar.GapFromBoot` | kernel/core/sched/ule.c:32-37 | over every run from boot the insert index is one ahead exactly if a tick preceded the first emptied calendar queue or 63 were emptied, and insertions avoid the run index exactly if a tick did or 32 were |
| `Calendar.BehindFromBoot` | kernel/core/sched/ule.c:27-38 | a run from boot after which priority 31 lands in the queue at the run index |
| `Calendar.NeverAtRunIndex` | kernel/core/sched/ule.c:185-200 | no timeshared insertion lands in the queue at the run index exactly if the distance is 1 to 32 |
| `Calendar.HigherIsNearer` | kernel/core/sched/ule.c:188-194 | higher priorities land strictly nearer in scan order exactly if the distance is at most 32 |
| `Calendar.Drains` | kernel/core/sched/ule.c:86-143 | a queue of n threads at the run index is drained first in first out by exactly n picks, whatever is inserted meanwhile, and the last pick moves the index on |
| `LoadBalance.FindMostAndLeast` | kernel/core/sched/ule.c:202-224 | the first CPU of the highest and the first of the lowest load |
| `LoadBalance.RoundOk` | kernel/core/sched/ule.c:582-621 | a round raises no maximum, lowers no minimum, moves no pinned thread, loses none, and strictly lowers the sum of squared loads if the loads differ by two or more |
| `LoadBalance.BalanceLoad` | kernel/core/sched/ule.c:576-622 | the whole loop does so too, moves nothing only if all loads are equal or the busiest CPU has nothing to migrate, and with fewer than sixteen moves leaves loads within one of each other or a busiest CPU with nothing to migrate |
| `Interactivity.ClampBounds` | kernel/core/sched/ule.c:269-298 | the clamp bounds the sum by 5001 ms exactly if the sum does not wrap to 10000 or less |
| `Interactivity.ClampOrder` | kernel/core/sched/ule.c:269-298 | without a wrap the clamp does not turn round which time is longer and raises neither above what it was or 1 |
| `Interactivity.ClampKeeps` | kernel/core/sched/ule.c:269-298 | it leaves all below 5000 ms, four fifths up to 6000 ms, half up to 10000 ms and 5001 ms beyond |
| `Interactivity.ChargedBounds` | kernel/core/sched/ule.c:746-757 | a tick keeps the bound; a wake-up keeps it exactly if run time and elapsed time do not wrap |
| `Interactivity.RunBounded` | kernel/core/sched/ule.c:641-649 | over every run of ticks and wake-ups with forward clocks the bound holds |
| `Interactivity.TicksAddUp` | kernel/core/sched/ule.c:641-649 | below the clamp any number n of ticks charges 10 n ms of run time and no sleep |
| `Interactivity.WokeCharges` | kernel/core/sched/ule.c:746-757 | below the clamp a wake-up charges the time slept |
| `Interactivity.ClockBehind` | kernel/core/sched/ule.c:751-756 | a wake-up against a clock that is 10 ms behind breaks it |
| `Interactivity.ScoreRange` | kernel/core/sched/ule.c:158-183 | the range of the score in each of its four cases |
| `Interactivity.SleepersOrdered` | kernel/core/sched/ule.c:168-171 | among threads that slept longer than they ran more sleep never raises the score and more run time never lowers it |
| `Interactivity.RunnersTurned` | kernel/core/sched/ule.c:171-174 | among the others it is the other way round |
| `Interactivity.RunnerBeatsBalanced` | kernel/core/sched/ule.c:168-174 | a thread that ran 5000 ms and slept 1 ms scores 50, one with 2500 ms of each 100 |
| `Interactivity.RunnersNotInteractive` | kernel/core/sched/ule.c:168-182 | a thread that slept at most as long as it ran is never interactive exactly if nice is at least -20 |
| `Interactivity.PriorityIndexes` | kernel/core/sched/ule.c:309-357 | for every 8-bit nice the priority indexes one of 64 queues, and is a timeshared one if the thread is not interactive |
| `Interactivity.BelowRealtime` | kernel/core/sched/ule.c:322-330 | an interactive priority stays below realtime exactly if nice is at least -21 |
| `Interactivity.LowerScoreHigherPriority` | kernel/core/sched/ule.c:323-329 | a lower score never gives a lower priority |
| `Interactivity.BatchPriorityIs` | kernel/core/sched/ule.c:343-353 | the priority is the clamped difference exactly if the 8-bit field does not wrap across the clamp |
| `Interactivity.MoreTicksLowerPriority` | kernel/core/sched/ule.c:332-346 | where it does not wrap, more ticks, with 0 counted as 1, never give a higher priority |
| `Interactivity.WrapTurnsOrder` | kernel/core/sched/ule.c:343-353 | where it wraps, one tick gives the lowest priority and two the highest |
| `Interactivity.Thread.ClampTime` | kernel/core/sched/ule.c:269-298 | the sum of the fields is at most 5001 afterwards exactly if it did not wrap to 10000 or less, and recent times are left alone |
| `Interactivity.Thread.RecomputePriority` | kernel/core/sched/ule.c:309-357 | the fields become priority and interactivity as specified, and the priority indexes a queue |
| `Interactivity.Thread.ChargeTick` | kernel/core/sched/ule.c:641-649 | charging a tick keeps the bound on the times |
| `Interactivity.Thread.ChargeSleep` | kernel/core/sched/ule.c:746-757 | charging a sleep keeps the bound exactly if nothing wraps |
| `Scheduler.FirstFree` | kernel/core/sched/ule.c:58-69 | the walk along a queue stops at the first thread that may be taken |
| `Scheduler.ClearBitmap` | kernel/core/sched/ule.c:92-95 | an empty bitmap means that the scan finds nothing |
| `Scheduler.LookInto` | kernel/core/sched/ule.c:108-124 | the test of a status bit and the walk along the queue find exactly what the queue offers |
| `Scheduler.Cpu.constructor` | kernel/core/sched/ule.c:687-718 | booting yields the empty state, which satisfies the agreement |
| `Scheduler.Cpu.InsertInQueue` | kernel/core/sched/ule.c:226-246 | exactly this thread joins the queues, the load grows by one, and bitmap, queues and load still agree |
| `Scheduler.Cpu.PickRealtimeThread` | kernel/core/sched/ule.c:40-84 | the scan over status bits picks what a scan over the queues would |
| `Scheduler.Cpu.FindBatch` | kernel/core/sched/ule.c:97-140 | the wrapping scan over status bits finds the first queue, around from the run index, that offers a thread |
| `Scheduler.Cpu.PickBatchThread` | kernel/core/sched/ule.c:86-143 | the pick and the move of the indices |
| `Scheduler.Cpu.IncrementIndices` | kernel/core/sched/ule.c:27-38 | the run index goes one on around the calendar, and a distance of one stays, of zero becomes 63, and any other shrinks by one |
| `Scheduler.Cpu.PickIdleThread` | kernel/core/sched/ule.c:145-156 | the idle queue was the thread returned followed by what is left, and nothing is returned exactly if it is empty or starts with a pinned thread that is to migrate |
| `Scheduler.Cpu.SelectThread` | kernel/core/sched/ule.c:477-518 | the result and the fields are those of the selection that `SelectBest` and `SelectFails` are about |
| `Scheduler.Cpu.TryPreemptWith` | kernel/core/sched/ule.c:385-411 | exactly this thread joins the queues and the slot, which holds it exactly where `PreemptsWhom` says, the load grows unless it went into an empty slot, and everything agrees |
| `Physical.FirstFit` | kernel/mm/physical.c:45-91 | the search finds the first aligned fit at or after the hint, or there is none |
| `Physical.FreeUndoesAlloc` | kernel/mm/physical.c:93-104 | freeing what was just allocated restores the bitmap |
| `Physical.AllocHint` | kernel/mm/physical.c:66-80 | after an allocation the hint is the first free page after it, or 0 exactly if everything after it is taken |
| `Physical.AllocAgain` | kernel/mm/physical.c:45-104 | an allocation, its free and the same request: it gets the same or an earlier page exactly if everything after the allocation is taken, and otherwise a later one or none |
| `Physical.NextFit` | kernel/mm/physical.c:45-104 | over every run of frees and failing requests after an allocation, the next one gets the first aligned fit from that hint on |
| `Physical.GetKeeps` | kernel/mm/physical.c:45-91 | an allocation keeps the bitmap the disjoint union of the live ranges |
| `Physical.PutKeeps` | kernel/mm/physical.c:93-104 | so does freeing a live range |
| `Physical.RunKeeps` | kernel/mm/physical.c:45-104 | over every run live ranges are in bounds, aligned and disjoint, and the bitmap is exactly their union |
| `PageAllocator.PmmModule.constructor` | kernel/mm/physical.c:29-43 | a new module has all pages free |
| `PageAllocator.PmmModule.Probe` | kernel/mm/physical.c:60-66 | the inner loop says whether the pages are free; a count of zero never succeeds |
| `PageAllocator.PmmModule.Hunt` | kernel/mm/physical.c:55-86 | the outer loop finds what the search finds, with an address counter in step with the page index |
| `PageAllocator.PmmModule.FindHint` | kernel/mm/physical.c:71-78 | the hint becomes the first free page from the end of the allocation on, or 0 |
| `PageAllocator.PmmModule.Allocate` | kernel/mm/physical.c:45-91 | bitmap and address are those of the first aligned fit, the address is aligned in bytes, and the hint becomes the first free page after the allocation, or 0 exactly if there is none |
| `PageAllocator.PmmModule.Discard` | kernel/mm/physical.c:93-104 | exactly the freed bits are cleared and the hint stays |

## Left out

- Mmu.PageTable.Map: a failing page allocation, and mapping a 4 KiB page below an existing larger page, where the code walks into the page as if it were a table.
- Mmu.PageTable.Translate: the protection of a 2 MiB page, which the code reads from the entry above the leaf; the model reports what the code reports.
- KmemCache.Kmem.constructor: sizes and alignments without room for the link, on which the code builds a broken list (`SlabLinks.ListInMemory`).
- KmemCache.StepRefines: two CPUs that create slabs of one cache at the same time; creation is one step, and `SlabGeometry.TornColor` says when the two reads of the colour are safe. A reload is one step too, although it takes the lock of the depot once for each of the two magazines it moves.
- KmemCache.Kmem.Alloc: a page allocator that has no page left, and an alignment so large that no buffer fits a page, on which the code follows an empty free list. It is the loop of one CPU running alone, with a page and a spare magazine at hand; the interleavings of CPUs are in `CacheRefinesSet`.
- Dispatcher.Kernel.TrySatisfy: other CPUs acting between its steps; the interleavings are in `WaitInvariant.StepKeeps`.
- WaitTheorems.OneSatisfier: runs in which a poll returns untidily; `TidyExactly` and `PollRuns.LatePollPanics` say what is lost then. The same holds of the other statements about tidy runs.
- WaitMutex.MutualExclusion: `mutex_lock` with a finite timeout, which sets `owner` although the wait may have timed out.
- PageAllocator.PmmModule.Discard: the routing of `pmm_free` to a module and its bounds test; the range is taken to lie in the module.
- PageAllocator.PmmModule.Allocate: address arithmetic beyond 64 bits. It is not promised that a free page below the hint is found: `Physical.AllocAgain` says when it is not.
- LoadBalance.BalanceLoad: the race of the unlocked reads of the loads, and the locks; the CPUs are values that only the balancer changes.
- CpuRuns.RunAccounted: runs in which a tick or a switch does not meet the exact conditions; `StepAccounted` says that such a step loses or doubles a thread.
- CpuRuns.RunInv: `sched_insert_in_queue` is called at `kernel/core/sched/ule.c` line 462 without the lock of the queues. It is one step here, so its interleaving with another CPU that readies or steals, which can spoil a queue, its bitmap and the load, is not modelled.
- CpuRuns.StepInv: the same unlocked insertion is one step.
- Interactivity.MoreTicksLowerPriority: tick counts so large that sixteen times them, or the rounding, wraps 64 bits.
- Interactivity.Thread.RecomputePriority: a tick count that is a multiple of 2^60, on which the code divides by zero.
- Spinning of `timer_stop` against an expiry on another CPU: the expiry is one step.
- The pairing heap of timers, and the order among due timers.
- `event_signal` and event queues, which are unfinished in the source.
- Large slabs, caches with a constructor, `kmem_malloc` size classes, and `kmem_cache_destroy`.
- `sched_pin`, `sched_remove_from_queue`, `pick_cpu` and `idle_thread`.
- Starvation freedom of the scheduler, and what selection misses when there is a current thread.
- `pmm_init` and the construction of modules from the memory map.
- TLB flushes, `pmap_activate` and the page-fault path.
- Memory ordering weaker than sequential consistency.
- The round-robin scheduler, interrupt levels, DPCs, ELF loading, ACPI, APIC, SMP boot, context switches, and the PCI and NVMe servers.

# A verified model of the kernel's core algorithms

This project models, in Dafny, the parts of the kernel whose correctness depends on reasoning across
several functions, and proves what they promise over every input or every run.

| part | files | what is proved |
|---|---|---|
| processes and semaphores (`kernel/process_handler.c`, `kernel/sem.c`) | `OrderedQueue`, `SetFacts`, `Kernel*` | one state machine of system calls, scheduler and collector; an invariant of every run; token conservation; no stranded waiter; no early wake-up and no overdue sleeper; which process runs; the code as a class that refines the state machine |
| the boundary-tag allocator (`shared/malloc.c.h`) | `Malloc*` | `mALLOc`, `fREe` and `malloc_consolidate` keep the heap invariant, blocks are disjoint and large enough, best fit, a request fails exactly when the blocks leave no room, the bitmap walk, the bin index, the guarded interface |
| the mailbox (`kernel/lwip/outils_projet/sys_arch.c`) | `Mailbox` | many producers, one consumer: exactly once and in order, at most 127 held, producers and consumer never block each other |
| packet buffers (`kernel/lwip/src/core/pbuf.c`) | `PbufModel`, `Pbuf` | exact reference counts, conservation of the pool, the length law, contents |
| the lwIP heap (`kernel/lwip/src/core/mem.c`) | `LwipHeap` | a doubly linked tiling, first fit, when a failed request means that nothing fits |
| the Internet checksum (`kernel/lwip/src/core/inet.c`) | `Checksum` | the checksum does not depend on how the data is cut into buffers |
| arithmetic and codecs (`shared/div64.c`, `user/test.c`, `shared/doprnt.c`, `shared/strtoul.c`, `kernel/gdb_serial.c`) | `Div64`, `NumberText`, `RunLength` | exact quotients, print then parse, when run-length encoding is lossless |

`dafny verify dfyconfig.toml` checks the whole project.

## How the code is modelled

System calls enter through interrupt gates (`kernel/interruptions/interruption.c:14-19`), so a call
runs without interruption up to `scheduler`, which ends the step by changing `cur`. What is left of a
`wait` or a `waitpid` that was suspended there is the step `Resume`. `KernelModel` gives every call as
a function of the state; `KernelTable.Table` is the code: tables updated in place and lists scanned by
loops, each method proved to produce exactly the state of the model and the return code the caller
sees. Lists of `shared/queue.h` are sequences ordered by the key named at insertion, with the first in,
first out rule among equal keys that its loop implements. A dereference of a null list element sets
`crashed`, which the invariant excludes.

The allocator, the packet buffers, the lwIP heap and the mailbox are classes whose fields are the
source's, with ghost fields for the set of chunk addresses, the outside holders of a buffer and the
history of messages. Links inside a list are kept as sequences; `size`, `prev_size`, `next` and `prev`
fields are modelled as stored, so that in-use bits, footers and back links have to be kept consistent.
Unsigned 32-bit and 16-bit arithmetic is written out with its wrap-around.

The mailbox is a state machine over the steps of its threads; a step is one semaphore operation and
the local code after it.

## Where the code departs from what one would expect

- `kill` of a process that waits for a semaphore calls `signal_death`, which may wake a second waiter:
  the blocked processes are then fewer than the debt of the counter. Exactness survives exactly when
  the victim was the only waiter (`KernelTheorems.KillBreaksExactness`).
  `KernelScenarios.KillLosesExactness` is a run from boot in which it is lost.
- `report_father` inserts the father into the actionable queue by pid, not by priority. Through a death
  the queue stays in order exactly when the woken father happens to fit between its neighbours there
  (`KernelOrder.DeathKeepsOrderIff`), and the election theorems are for all runs in which every woken
  father does. `KernelScenarios.FatherPassedOver` is a run from boot in which one does not, and the
  scheduler elects a process of lower priority.
- `start` called by idle and `kill` of another process do not reschedule, so the running process may
  then be below a runnable one until the next reschedule. That happens exactly when the process started
  is above idle, when the father woken by the death is above the running process, or when the victim
  waits for a semaphore for which a process above the running one waits, too: `Overtakes` in
  `KernelPriority.StepElects` and, over whole runs, `KernelPriority.RunTops`.
  `KernelScenarios.StartOvertakes` and `KernelScenarios.KillOvertakes` are inputs.
- `chprio` inserts a sleeping process into the asleep queue by priority, while `scheduler` takes the queue
  to be in the order of the alarms. The order survives exactly when the process happens to fit at its
  new place (`KernelAlarm.SleeperMovedIff`), and without a misfit no sleeper is overdue after a context
  switch or a reschedule (`KernelAlarm.RunWakes`). `KernelScenarios.Oversleeps` is a run from boot in
  which a due sleeper sleeps on.
- `kill` of a process that is dead already fails, but replaces the value its father is going to get by 0
  (`KernelOutcomes.KillRefused`).
- `mem_realloc` frees the tail of a block without lowering `lfree`, so `mem_malloc` can fail although a
  free block fits (`LwipHeap.ReallocHidesRoom`, four calls on a new heap); `LwipHeap.Heap.Realloc` states exactly when `lfree`
  stays the lowest free block.
- `inet_chksum_pbuf` does not swap the accumulator after an odd buffer, because of operator precedence
  on line 162. It is right for all data of given lengths exactly when all lengths are even
  (`Checksum.PbufChecksumIff`).
- `do_div64` faults when the shifted divisor plus one wraps to zero; `Div64.WrapsIff` says for which
  divisors.
- The run-length encoder sends a `*` of a raw fragment as it is, which the debugger reads as a run when
  it follows a plain character (`RunLength.StarIsAmbiguous`). A raw fragment comes back exactly when no
  `*` does (`RunLength.LosslessIff`, with the condition on the data, `StarsSafe`). For several fragments the condition suffices but is not necessary: two fragments of
  `*` can come back by luck (`RunLength.LuckyStars`).
- The comment on the bins in `shared/malloc.c.h:2148-2161` describes 128 bins with a limit of 512
  bytes; the constants below it, which the model follows, give 96 bins and 256 bytes.

## Model

| member | source | states |
|---|---|---|
| OrderedQueue.AddSorted | shared/queue.h:73-87 | inserting keeps a list in increasing order of its key |
| OrderedQueue.AddIsFifo | shared/queue.h:73-87 | among equal keys the element that entered last stands first, so it leaves last |
| OrderedQueue.AddThenRemove | shared/queue.h:155-163 | `queue_del` undoes `queue_add` |
| KernelModel.FindBySem | kernel/process_handler.c:839-849 | finds a waiter of the semaphore in the queue, or there is none |
| KernelInvariant.WakeDueCore | kernel/process_handler.c:1105-1120 | waking sleepers keeps the invariant, changes nothing but due sleepers, and wakes nobody before its alarm |
| KernelInvariant.SchedulerInv | kernel/process_handler.c:1100-1151 | `scheduler` called by a process that gave up the processor ends in the invariant: it never dequeues from an empty queue |
| KernelInvariant.YieldInv | kernel/process_handler.c:1122-1151 | the same for a preempted process that stays actionable |
| KernelSemaphores.FindHighest | kernel/process_handler.c:839-849 | the waiter found has at least the priority of every waiter of the semaphore |
| KernelSemaphores.FindLast | kernel/process_handler.c:839-849 | the waiter found stands at or behind every waiter of the semaphore in the queue: among equal priorities the one that has waited longest |
| KernelSemaphores.ReleaseNCore | kernel/process_handler.c:905-929 | releasing up to n waiters releases exactly min(n, waiters) of this semaphore, with the given code, and touches nobody else |
| KernelSemaphores.SignalInv | kernel/sem.c:171-199 | `signal` keeps the invariant and every blocked wait of other semaphores |
| KernelSemaphores.SignalNInv | kernel/sem.c:230-258 | the same for `signaln` |
| KernelSemaphores.SResetInv | kernel/sem.c:146-166 | `sreset` releases all waiters with code -4 and keeps the invariant |
| KernelSemaphores.SDeleteInv | kernel/sem.c:126-140 | `sdelete` releases all waiters with code -3, so nobody waits on the id that becomes free |
| KernelSemaphores.SCreateInv | kernel/sem.c:101-120 | `screate` hands out a free id with no waiters |
| KernelSemaphores.WaitBlocksInv | kernel/sem.c:265-293 | `wait` on a counter of 0 or less blocks the caller and counts it |
| KernelLife.StartInv | kernel/process_handler.c:301-461 | `start` keeps the invariant, the semaphores and every blocked wait |
| KernelOutcomes.StartGives | kernel/process_handler.c:301-461 | the new process has the lowest free pid, the given priority and the caller as father and is runnable; nobody else changes except due sleepers |
| KernelLife.ChPrioInv | kernel/process_handler.c:167-215 | `chprio` keeps the queue of blocked processes sorted and the invariant |
| KernelOutcomes.ChPrioOutcome | kernel/process_handler.c:167-215 | a living process gets the new priority if that is between 1 and 256, and nobody else changes except due sleepers; any other call changes nothing |
| KernelLife.ExitInv | kernel/process_handler.c:720-749 | `exit` keeps the invariant, the semaphores and every blocked wait, and hands over to the collector |
| KernelOutcomes.ExitOutcome | kernel/process_handler.c:495-541 | the caller becomes a zombie with its return value; its dead children are freed and its living ones get idle as father; a father that waits for it is woken and told; nobody else changes except due sleepers |
| KernelLife.CollectInv | kernel/process_handler.c:668-696 | a turn of the collector keeps the invariant and elects a process |
| KernelOutcomes.CollectOutcome | kernel/process_handler.c:668-685 | the collector frees exactly the dead processes without father |
| KernelKill.KillOtherInv | kernel/process_handler.c:754-811 | `kill` of a process that waits for no semaphore keeps the invariant |
| KernelKill.KillWaiterInv | kernel/process_handler.c:780-786 | `kill` of a waiter gives its token back and wakes at most one further waiter of that semaphore |
| KernelOutcomes.KillOutcome | kernel/process_handler.c:754-811 | another living process becomes a zombie with return value 0, or is freed at once when its father is idle; children and a waiting father as for `exit`; nobody else changes except waiters of its semaphore |
| KernelOutcomes.KillRefused | kernel/process_handler.c:754-795 | `kill` of idle or of no process changes nothing, `kill` of a dead one only its return value, to 0 |
| KernelKill.WaitPidInv | kernel/process_handler.c:546-604 | `waitpid` keeps the invariant, the semaphores and every blocked wait |
| KernelOutcomes.WaitPidOutcome | kernel/process_handler.c:546-604 | refused arguments change nothing; otherwise a dead child is freed and the caller goes on, or the caller is suspended until that child dies |
| KernelRuns.StepKeeps | kernel/process_handler.c:59-1151 | every step of every process keeps the invariant and releases waiters only of the semaphore it names |
| KernelRuns.BootInv | kernel/process_handler.c:1157-1165 | the state after initialisation satisfies the invariant |
| KernelRuns.RunInv | kernel/process_handler.c:1100-1151 | every state of every run satisfies the invariant: each pid except the running one is in exactly the queue its state names, and the kernel never follows a null element |
| KernelRuns.PidsTotal | kernel/process_handler.c:59-109 | in every run free, live and zombie pids total 100 |
| KernelRuns.NobodyStranded | kernel/sem.c:126-225 | in every run, including `kill`, `sreset`, `sdelete` and reuse of ids: at most -value processes are blocked, so none when value is not negative; no process waits on a free id; values stay within [-32767, 32767] |
| KernelRuns.StepConserves | kernel/sem.c:171-293 | one step adds the signalled tokens to the value, takes the waited ones, and grants exactly the waits that leave the blocked set |
| KernelTheorems.TokensConserved | kernel/sem.c:171-293 | over a run without `sreset`, `sdelete` or death of a waiter: value = start + signals - waits, and waits = granted + still blocked |
| KernelTheorems.SemaphoreLaw | kernel/sem.c:101-293 | for a semaphore created with count c: value = c + signals - (granted + blocked), blocked = max(0, -value), granted is at most c + signals |
| KernelTheorems.KillBreaksExactness | kernel/process_handler.c:780-786 | after the death of a waiter blocked = max(0, -value) still holds if and only if it was the only waiter |
| KernelScenarios.KillLosesExactness | kernel/process_handler.c:780-786 | a run from boot: two processes wait for a semaphore created with 0, a third kills one, and the equality is lost |
| KernelTheorems.WaitReturnsReleaseCode | kernel/sem.c:277-290 | a process blocked in `wait` stays blocked or was released by one event on its semaphore, and the code it will return is that event's: 0, -3 or -4, whatever runs in between |
| KernelTheorems.ReleaseNBestFirst | kernel/process_handler.c:905-929 | whoever is left waiting has at most the priority of whoever was released |
| KernelTheorems.SignalWakesHighest | kernel/sem.c:171-258 | `signal` and `signaln` wake waiters of highest priority |
| KernelTheorems.DeathWakesHighest | kernel/sem.c:205-225 | `signal_death` wakes a highest priority waiter among those left by the victim |
| KernelOrder.SchedulerHighest | kernel/process_handler.c:1122-1141 | with the actionable queue in order, the elected process has maximal priority among all runnable ones |
| KernelOvertake.ForfeitAboveIff | kernel/process_handler.c:780-786 | the waiter that `signal_death` releases is above a given priority if and only if some waiter other than the victim is |
| KernelOvertake.KillAboveIff | kernel/process_handler.c:754-811 | if no runnable process was above the running one, then after `kill` of another process none is if and only if neither a father that the death wakes nor another waiter of the victim's semaphore is above it |
| KernelPriority.StepElects | kernel/process_handler.c:1094-1143 | every step in which a woken father, if any, fits at the place of its pid keeps the queue in order; a context switch elects a process of maximal priority; and where the running process was maximal, the one running afterwards is maximal if and only if the step does not overtake it: no accepted `start` above idle by idle, no `kill` that wakes a father or a waiter above the running process |
| KernelPriority.RescheduleTops | kernel/process_handler.c:1122-1141 | a reschedule by the timer, or by a process that lowers its own priority, elects a maximal process, even if it is the same |
| KernelPriority.RunElects | kernel/process_handler.c:1094-1143 | the same over whole runs from boot |
| KernelPriority.RunTops | kernel/process_handler.c:1094-1143 | over runs from boot, from any state with a maximal running process on: it is maximal in all later states if and only if no step overtakes it |
| KernelOrder.DeathKeepsOrderIff | kernel/process_handler.c:495-508 | through the death of a process the actionable queue stays in order if and only if the father, when it waits for it, fits between its neighbours at the place of its pid |
| KernelScenarios.FatherPassedOver | kernel/process_handler.c:495-508 | a run from boot that ends with a context switch to a process of lower priority than the woken father |
| KernelScenarios.StartOvertakes | kernel/process_handler.c:455-457 | after boot idle is maximal, and no longer when it has started its first process |
| KernelScenarios.KillOvertakes | kernel/process_handler.c:754-811 | a run from boot in which a process kills a waiter and goes on running below the other waiter, which has become runnable |
| KernelSleep.StepSleeps | kernel/process_handler.c:1105-1120 | no step, `kill` of the sleeper itself excepted, wakes a sleeper whose alarm the clock has not passed; the clock counts the timer interrupts |
| KernelSleep.SleepsUntilAlarm | kernel/process_handler.c:469-479 | in every run a sleeper that nobody kills is asleep in every state up to its alarm |
| KernelAlarm.WaitClockOutcome | kernel/process_handler.c:469-479 | a time that lies ahead puts the caller to sleep with this alarm and hands the processor over; any other does nothing |
| KernelAlarm.WakeDueExit | kernel/process_handler.c:1105-1120 | whatever the order of the asleep queue, the loop ends with an empty queue or a first sleeper that is not due |
| KernelAlarm.SleeperMovedIff | kernel/process_handler.c:194-203 | `chprio` of a sleeper keeps the asleep queue in the order of the alarms if and only if it fits at the place of its new priority |
| KernelAlarm.StepWakes | kernel/process_handler.c:1100-1151 | every step that misplaces no sleeper keeps that order, and after a context switch or a reschedule no sleeper is overdue |
| KernelAlarm.RunWakes | kernel/process_handler.c:1100-1151 | the same over whole runs from boot |
| KernelScenarios.Oversleeps | kernel/process_handler.c:194-203 | a run from boot in which `chprio` puts a later sleeper first and a reschedule leaves a due one asleep |
| KernelAlarm.TakesTurns | kernel/process_handler.c:1122-1141 | among equal priorities a reschedule elects the one that has waited longest, and the running process goes behind all of them |
| KernelTable.Table.constructor | kernel/process_handler.c:1157-1165 | the tables after initialisation are the initial state of the model |
| KernelTable.Table.Scheduler | kernel/process_handler.c:1100-1151 | the loops of `scheduler` compute the model's scheduler, about which `KernelAlarm.WakeDueExit` and `KernelOrder.SchedulerHighest` speak |
| KernelTable.Table.FindBySem | kernel/process_handler.c:839-849 | the backward scan computes the model's search |
| KernelTable.Table.UnblockN | kernel/process_handler.c:905-929 | the loop releases the model's n waiters, then preempts |
| KernelTable.Table.UnblockAll | kernel/process_handler.c:938-956 | the loop ends and has released all waiters |
| KernelTable.Table.SCreate | kernel/sem.c:101-120 | new state, invariant and return value of `screate` |
| KernelTable.Table.SDelete | kernel/sem.c:126-140 | the same for `sdelete` |
| KernelTable.Table.SReset | kernel/sem.c:146-166 | the same for `sreset` |
| KernelTable.Table.Signal | kernel/sem.c:171-199 | the same for `signal`: 0, -1 or -2 |
| KernelTable.Table.SignalN | kernel/sem.c:230-258 | the same for `signaln` |
| KernelTable.Table.Wait | kernel/sem.c:265-293 | the same for `wait`, which returns 0, -1, -2 or is suspended |
| KernelTable.Table.TryWait | kernel/sem.c:298-323 | the same for `try_wait`, which never blocks: 0, -1, -2 or -3 |
| KernelTable.Table.SCount | kernel/sem.c:86-95 | the value as an unsigned 16-bit number, or -1 |
| KernelTable.Table.ChPrio | kernel/process_handler.c:167-215 | new state, invariant and the old priority or -1 |
| KernelTable.Table.Start | kernel/process_handler.c:301-461 | new state, invariant and the new pid or -1 |
| KernelTable.Table.WaitClock | kernel/process_handler.c:469-479 | the caller sleeps until its alarm if that lies ahead |
| KernelTable.Table.CheckZombiesChildren | kernel/process_handler.c:514-531 | all zombie children of the dead process are freed |
| KernelTable.Table.Funeral | kernel/process_handler.c:536-541 | the other children become children of idle |
| KernelTable.Table.GarbageCollect | kernel/process_handler.c:668-685 | the loop frees the dead processes without father |
| KernelTable.Table.Exit | kernel/process_handler.c:720-749 | new state and invariant |
| KernelTable.Table.Kill | kernel/process_handler.c:754-811 | new state, invariant, and 0 exactly for a living target |
| KernelTable.Table.WaitPid | kernel/process_handler.c:546-604 | -1 exactly for the refused arguments; a dead child, the one asked for if one was, is reaped and its exit value returned; otherwise the caller is suspended |
| KernelTable.Table.Resume | kernel/sem.c:284-289 | a suspended `wait` returns the code of its releasing event, a suspended `waitpid` the dead child it was woken for and its exit value |
| MallocIndex.RequestSize | shared/malloc.c.h:1991-2015 | the chunk size is the least aligned size with room for the request and its size field, and adding MINSIZE cannot wrap |
| MallocIndex.RetrySize | shared/malloc.c.h:2918-2922 | the request `sYSMALLOc` retries has the same chunk size |
| MallocIndex.HighBitIsLog | shared/malloc.c.h:2203-2217 | the branch-free code computes floor(log2) of every non-zero 16-bit number |
| MallocIndex.LargebinRange | shared/malloc.c.h:2188-2222 | a large bin holds one quarter of a power of two |
| MallocIndex.BinIndexMonotone | shared/malloc.c.h:2174-2225 | the bin index grows with the size and stays below NBINS |
| MallocIndex.HigherBinLarger | shared/malloc.c.h:3608-3656 | a chunk of a higher bin is larger |
| MallocIndex.SmallBinExact | shared/malloc.c.h:2165-2182 | small bins hold one size each |
| MallocBinmap.MarkedAfter | shared/malloc.c.h:2296-2305 | `mark_bin` and `unmark_bin` change exactly one bit |
| MallocBinmap.NextBin | shared/malloc.c.h:3616-3656 | the walk over words and bits finds the least non-empty bin from its start on, clears false alarms, and every non-empty bin stays marked |
| MallocTags.TakeTags | shared/malloc.c.h:3456-3460 | handing out a whole free chunk keeps the tags and changes only this chunk |
| MallocTags.SplitTags | shared/malloc.c.h:3669-3684 | splitting a free chunk keeps the tags; the rest is free |
| MallocTags.SplitTopTags | shared/malloc.c.h:3711-3721 | splitting top keeps the tags |
| MallocTags.MergeBackTags | shared/malloc.c.h:3783-3788 | the footer leads to the free chunk before, and joining it keeps the tags |
| MallocTags.MergeNextTags | shared/malloc.c.h:3790-3816 | joining the free chunk after keeps the tags |
| MallocTags.MergeTopTags | shared/malloc.c.h:3824-3829 | joining top keeps the tags |
| MallocTags.Tiling | shared/malloc.c.h:2568-2600 | every address of the arena lies in exactly one chunk |
| MallocTags.UsedBytes | shared/malloc.c.h:1884-1906 | user memory of used chunks is disjoint and holds no size field and no live footer |
| MallocBins.FileBinned | shared/malloc.c.h:3530-3563 | filing an unsorted chunk keeps large bins sorted and every free chunk in exactly one list |
| MallocBins.UnlinkBinned | shared/malloc.c.h:2132-2137 | `unlink` removes exactly this chunk from the lists |
| MallocBins.HigherBinBest | shared/malloc.c.h:3649-3656 | the back of the first non-empty higher bin is a smallest chunk that fits |
| MallocBins.ScanBest | shared/malloc.c.h:3577-3585 | scanning a large bin from the back finds a smallest chunk that fits |
| MallocGaps.FreesAreGaps | shared/malloc.c.h:2568-2600 | the free chunks are exactly the gaps between the used ones, with their sizes |
| MallocGaps.TopIsTail | shared/malloc.c.h:2568-2600 | top begins exactly where the last used chunk ends |
| MallocGaps.RoomIff | shared/malloc.c.h:2882-3230 | a free chunk fits or top has room if and only if the used chunks leave a gap of this size or, behind the last one, this size and MINSIZE |
| MallocUnsorted.TrailUnique | shared/malloc.c.h:3900-3990 | the order of the unsorted list after a consolidation is determined by the chunks in use, the fast lists and the list before |
| Malloc.Heap.constructor | shared/malloc.c.h:2488-2522 | the empty heap satisfies the invariant |
| Malloc.Heap.FreeChunk | shared/malloc.c.h:3773-3830 | coalescing keeps the invariant: tags, one list per free chunk, no two free neighbours; the gap around the chunk comes to the front of the unsorted list, or becomes part of top |
| Malloc.Heap.ResetUnsorted | shared/malloc.c.h:3672-3673 | overwriting the unsorted list on a split loses no chunk |
| Malloc.Heap.FileLast | shared/malloc.c.h:3530-3563 | the oldest unsorted chunk goes to its bin, at the front of a small one, and no other list changes |
| Malloc.Heap.DrainUnsorted | shared/malloc.c.h:3486-3564 | every unsorted chunk is binned, unless one fits exactly or, if and only if the shortcut applies, the last remainder is split |
| Malloc.Heap.ScanLarge | shared/malloc.c.h:3577-3605 | a large request takes a best fit of its own bin or learns that there is none |
| Malloc.Heap.TakeHigher | shared/malloc.c.h:3616-3689 | a best fit from the higher bins, or nothing fits at all |
| Malloc.Heap.SysMalloc | shared/malloc.c.h:2882-3230 | consolidate and retry if there may be fast chunks, otherwise extend top by what the system gives; it fails if and only if then, with exactly the blocks of the program in use, nothing fits and top has no room |
| Malloc.Heap.Malloc | shared/malloc.c.h:3379-3725 | keeps the heap invariant; a request that can be represented fails if and only if no gap between the blocks of the program is large enough and the memory behind the last one, with what the system gives, lacks room; a block is new, aligned, large enough and less than MINSIZE too large, all other blocks are untouched, memory is extended only when the system is asked; the block is the head of the fast list of its size if and only if that is not empty, and the last remainder if and only if, otherwise, the request is small, its bin and the older unsorted chunks hold none of its size and the newest unsorted chunk is the last remainder and large enough; a fast chunk is taken off its list, and the rest of a chunk that is cut becomes the only unsorted chunk and, for a small request, the last remainder |
| Malloc.BestFitRule | shared/malloc.c.h:3446-3725 | in all other cases the block is a smallest free chunk that fits, and if none fits it is split off top if and only if top has room |
| Malloc.LargeBestGap | shared/malloc.c.h:3413-3725 | a large request gets the beginning of a smallest gap between the blocks that is large enough, and only without one the memory behind the last block |
| Malloc.SearchedUnique | shared/malloc.c.h:3413-3725 | the free chunks, top and the shortcut in the state in which the search begins are determined by the state before the call |
| Malloc.Heap.Free | shared/malloc.c.h:3732-3880 | keeps the heap invariant and gives back exactly this block; a small one goes to the front of the fast list of its size and nothing else changes; a larger one is coalesced, and the fast chunks are consolidated if and only if what it has become part of has at least 128 Kbytes and there may be fast chunks |
| Malloc.Heap.Consolidate | shared/malloc.c.h:3900-3990 | empties the fast lists, keeps the heap invariant and every block of the program; each fast chunk, in the order of the lists, brings its gap to the front of the unsorted list |
| Malloc.Heap.BlocksDisjoint | shared/malloc.c.h:2568-2600 | user memory of different blocks never overlaps |
| Malloc.HoldsRequest | shared/malloc.c.h:1969-2015 | the requested bytes lie in the user memory of the block |
| MallocGuard.RefusedLength | shared/malloc.c.h:5598-5604 | `mem_alloc` refuses a length exactly when its size with guards is not a 32-bit number |
| MallocGuard.Check | shared/malloc.c.h:5618-5628 | no error is reported if and only if the four guard words are intact |
| MallocGuard.GuardedHeap.MemAlloc | shared/malloc.c.h:5598-5615 | a zeroed zone of its own with intact guards; the words of all other zones are untouched; it fails, and changes no word and no block, if and only if the length is 0 or above 2^32 - 52 or the blocks leave no room for the zone and its guards |
| MallocGuard.GuardedHeap.MemFree | shared/malloc.c.h:5618-5631 | accepts exactly the length of the allocation, gives exactly the block of the zone back to the heap, so that the same request succeeds afterwards, and a second free finds the guard gone; a refused call changes nothing |
| Mailbox.StepInv | kernel/lwip/outils_projet/sys_arch.c:193-347 | every step of every producer and of the consumer keeps the invariant |
| Mailbox.RunInv | kernel/lwip/outils_projet/sys_arch.c:155-347 | every state of every run satisfies it: mutual exclusion, ring contents, exact `wait_send`, no lost wake-up |
| Mailbox.InOrderExactlyOnce | kernel/lwip/outils_projet/sys_arch.c:231-347 | in every run: posted = fetched followed by the ring, and at most 127 are held |
| Mailbox.PostedOnce | kernel/lwip/outils_projet/sys_arch.c:193-261 | a message goes in only under the mutex, when there is room; what comes out is the oldest |
| Mailbox.ProduceLaw | kernel/lwip/outils_projet/sys_arch.c:193-261 | a producer with the mutex stores its message if fewer than 127 are held; otherwise `trypost` is refused and `post` goes to sleep |
| Mailbox.ConsumeLaw | kernel/lwip/outils_projet/sys_arch.c:268-347 | the consumer with the mutex takes the oldest message if there is one, in `tryfetch`, too |
| Mailbox.CallStores | kernel/lwip/outils_projet/sys_arch.c:193-261 | in every run, a call of `post` or `trypost` that returns has stored its message exactly once, unless it was a `trypost` that was refused after the ring was full |
| Mailbox.CallFetchesOne | kernel/lwip/outils_projet/sys_arch.c:268-347 | in every run, a fetch that returns has taken exactly one message, the oldest, unless it timed out or was a `tryfetch` on an empty ring |
| Mailbox.NotStuck | kernel/lwip/outils_projet/sys_arch.c:193-347 | if every thread inside a call is blocked, then either the consumer waits on an empty ring and no producer is inside a call, or producers wait on a non-empty ring and the consumer is not inside a call |
| Mailbox.BlockedConsumer | kernel/lwip/outils_projet/sys_arch.c:301-347 | a consumer blocked without token, mutex free, faces an empty ring |
| Mailbox.BlockedProducers | kernel/lwip/outils_projet/sys_arch.c:231-261 | producers blocked without token and none woken, mutex free, face a non-empty ring |
| Mailbox.Mbox.ProducerStep | kernel/lwip/outils_projet/sys_arch.c:193-261 | the code of a producer between two semaphore operations makes the model's step |
| Mailbox.Mbox.ConsumerStep | kernel/lwip/outils_projet/sys_arch.c:268-347 | the same for the consumer; a message taken is the oldest posted one not yet fetched |
| Pbuf.Pbufs.Free | kernel/lwip/src/core/pbuf.c:549-613 | deallocates exactly the maximal prefix of buffers with one reference, takes one reference from the next, and counts stay exact |
| Pbuf.PrefixIs | kernel/lwip/src/core/pbuf.c:576-605 | the prefix is maximal: all its buffers have one reference and the next one has not |
| Pbuf.Pbufs.AllocPool | kernel/lwip/src/core/pbuf.c:225-308 | a chain of exactly as many buffers as needed that obeys the length law, whatever the other chains; the first leaves 40, 20 or 0 bytes for headers and all but the last are full; or, if and only if the pool has too few, nothing changes, even when it runs out halfway |
| Pbuf.Pbufs.AllocOne | kernel/lwip/src/core/pbuf.c:309-346 | one buffer with one reference, or nothing |
| Pbuf.PoolConserved | kernel/lwip/src/core/pbuf.c:140-184 | free pool buffers and pool buffers in use always add up to the pool |
| Pbuf.Pbufs.Ref | kernel/lwip/src/core/pbuf.c:642-652 | one more holder, one more reference |
| Pbuf.Pbufs.Cat | kernel/lwip/src/core/pbuf.c:664-685 | the chains are concatenated, counts stay exact; the joined chain obeys the length law if both did, whatever the other chains; the law of the whole table is kept on unshared chains |
| Pbuf.Pbufs.ChainOnto | kernel/lwip/src/core/pbuf.c:702-708 | the same, and the caller keeps its reference |
| Pbuf.Pbufs.Dechain | kernel/lwip/src/core/pbuf.c:924-952 | the first buffer is separated, the rest loses one reference, counts stay exact; both parts obey the length law if the chain did, whatever the other chains |
| Pbuf.ChainThenDechain | kernel/lwip/src/core/pbuf.c:664-952 | chaining onto a single buffer and dechaining restores the whole table |
| Pbuf.Pbufs.Realloc | kernel/lwip/src/core/pbuf.c:393-447 | a chain that obeys the length law holds exactly its first newLen bytes afterwards and still obeys it, whatever the other chains; counts stay exact; the law of the whole table is kept on unshared chains |
| Pbuf.Pbufs.Take | kernel/lwip/src/core/pbuf.c:829-914 | as many buffers, the same bytes and lengths, none that refers to foreign memory; counts stay exact; the length law of the chain is kept; it fails, and the caller's chain is given up, if and only if for some buffer neither the rest of the pool nor the heap has room |
| PbufModel.TotalLength | kernel/lwip/src/core/pbuf.c:934-936 | the total of a chain's head is the length of its contents, in 16 bits |
| LwipHeap.Heap.constructor | kernel/lwip/src/core/mem.c:115-136 | the heap after `mem_init` satisfies the invariant |
| LwipHeap.Heap.PlugHoles | kernel/lwip/src/core/mem.c:82-113 | joins free neighbours: tiling and links kept, no two free blocks touch, `lfree` on a free block |
| LwipHeap.Heap.Malloc | kernel/lwip/src/core/mem.c:242-310 | first fit from `lfree` on; with `lfree` lowest, NULL if and only if no free block fits |
| LwipHeap.Heap.FreeBlock | kernel/lwip/src/core/mem.c:138-176 | gives back exactly this block and keeps `lfree` lowest |
| LwipHeap.Heap.Realloc | kernel/lwip/src/core/mem.c:191-240 | cuts the block when the rest is worth it; keeps `lfree` lowest if and only if nothing was cut, or it lay below, or it was the next block |
| LwipHeap.ReallocHidesRoom | kernel/lwip/src/core/mem.c:191-240 | a heap in which room freed by `mem_realloc` is not found |
| Checksum.LwipChksum | kernel/lwip/src/core/inet.c:52-77 | the one's complement sum of the words, without overflow of the accumulator |
| Checksum.NormIs | kernel/lwip/src/core/inet.c:70-76 | adding back carries is reduction modulo 65535 with 65535 for non-zero multiples |
| Checksum.AddChunk | kernel/lwip/src/core/inet.c:96-109 | the byte swap after odd buffers keeps the accumulator equal to the sum of the data so far |
| Checksum.InetChksumPseudo | kernel/lwip/src/core/inet.c:85-127 | for every cut into buffers, odd lengths included, the checksum of the pseudo header followed by the data |
| Checksum.InetChksum | kernel/lwip/src/core/inet.c:135-144 | the complement of the one's complement sum |
| Checksum.Verifies | kernel/lwip/src/core/inet.c:135-144 | a message with its checksum stored has checksum 0, and only that value, up to the two zeros, does it |
| Checksum.InetChksumPbuf | kernel/lwip/src/core/inet.c:147-170 | what the code without the swap computes |
| Checksum.PbufChecksumIff | kernel/lwip/src/core/inet.c:155-165 | it is the checksum of the data, for all data of given buffer lengths, if and only if all lengths are even |
| Div64.DoDiv64 | shared/div64.c:28-64 | the exact quotient and remainder, with at most two corrections and no overflowing divide; a fault exactly when the shifted divisor plus one wraps |
| Div64.WrapsIff | shared/div64.c:36-39 | it wraps exactly for divisors whose leading 32 bits, of at least 33, are all ones |
| Div64.Estimate | shared/div64.c:35-47 | the estimate is at most 2 below the quotient |
| Div64.ShiftSubtract | user/test.c:729-760 | the same quotient and remainder by shifting and subtracting |
| Div64.Mul64 | user/test.c:765-797 | the product modulo 2^64 |
| NumberText.PrintNum | shared/doprnt.c:524-588 | the code prints blanks, sign, prefix, zeros, digits and blanks as laid out by `Printed` |
| NumberText.PrintedLength | shared/doprnt.c:543-588 | the length is max(width, sign + prefix + max(precision, digits)) |
| NumberText.PrintedPlaces | shared/doprnt.c:545-588 | where each part stands: blanks before the sign or, with left adjustment, after the digits, none with zero padding; the prefix `0` or `0x` directly after the sign; zeros between prefix and digits |
| NumberText.LaidOutOnce | shared/doprnt.c:545-588 | these places determine the text |
| NumberText.PrintedEnds | shared/doprnt.c:545-588 | without left adjustment the text ends in the digits, with it it begins with the sign; a blank stands first, or last, if and only if the width exceeds what has to be printed and the adjustment is to the right, or to the left, without zero padding |
| NumberText.DigitsPlain | shared/doprnt.c:536-544 | lower-case digits of the base, without leading zero |
| NumberText.Strtoul | shared/strtoul.c:21-56 | the code reads as `Parsed` says, base 0 included |
| NumberText.PrintThenParse | shared/doprnt.c:520-588 | reading back a printed unsigned number in base 8, 10 or 16 gives the number, for every format |
| NumberText.PrintThenGuess | shared/strtoul.c:27-40 | with `#`, reading a non-zero octal or hexadecimal number in base 0 finds base and number |
| NumberText.DecimalGuessedIff | shared/strtoul.c:33-39 | a decimal number comes back in base 0 if and only if it is printed without leading zeros or is less than 8 |
| NumberText.CaseBlind | shared/strtoul.c:42-52 | reading does not depend on the case of letters |
| RunLength.Hex2Bin | kernel/gdb_serial.c:55-66 | all bytes, or -1 if and only if a character is no digit |
| RunLength.HexRoundTrip | kernel/gdb_serial.c:47-66 | reading back hexadecimal text gives the data |
| RunLength.ItemsMean | kernel/gdb_serial.c:150-200 | the items a fragment is cut into stand for its text, each run of 4 to 98 characters |
| RunLength.EncodedJoin | kernel/gdb_serial.c:150-200 | what is sent for raw data splits where a block of equal bytes ends |
| RunLength.EncodedBlock | kernel/gdb_serial.c:150-200 | a block of n equal raw bytes costs 3 characters for every 98 bytes and at most 3 for the rest |
| RunLength.HexBlockSent | kernel/gdb_serial.c:150-200 | the same in hexadecimal for bytes with equal digits: 3 characters for every 49 bytes |
| RunLength.ExpandItems | kernel/gdb_serial.c:150-200 | expanding what was sent gives what was meant, for any number of fragments, wherever every `*` of the text follows a run |
| RunLength.PutFrags | kernel/gdb_serial.c:133-222 | the packet holds the items of the fragments and ends in the sum of the body modulo 256; counts lie in 32..126; the expanded body is the text of the fragments whenever every `*` follows a run, so always without `*`; for one raw fragment if and only if `StarsSafe` |
| RunLength.SafeIsClear | kernel/gdb_serial.c:150-200 | the condition on the data, by lengths of blocks of equal bytes modulo 98, is the condition on what is sent |
| RunLength.StaysBehind | kernel/gdb_serial.c:150-200 | a decoder that has used up more of the packet than was spent on the text it has produced never catches up, also where bytes 29 to 31 are read as counts of one to three |
| RunLength.LosslessIff | kernel/gdb_serial.c:150-200 | a raw fragment comes back if and only if no `*` in it follows a plain character |
| RunLength.StarIsAmbiguous | kernel/gdb_serial.c:150-200 | the encoder sends `a*b` as it is, which is read as 70 times `a` |
| RunLength.LuckyStars | kernel/gdb_serial.c:150-200 | for several fragments the condition is sufficient only |

## Left out

- Context switch, stacks, TSS, segments, interrupts controller and paging: hardware state; `ctx_sw` is the change of `cur`.
- Allocation failure inside `start`, which returns without giving the pid back.
- The order of the list of children: `waitpid(-1)` with several dead children may reap any of them; the class scans by pid.
- `wait_clock` beyond the range of a C `int`.
- Console input (`cons_read`, `wait_on_io`) and the display functions.
- `memalign`, `realloc`, `calloc`, statistics, `mmap` and trimming in the allocator; `sbrk` refuses to shrink, so trimming never releases memory.
- Malloc.Heap.SysMalloc: memory from the system only extends top or is refused; alignment corrections and foreign `sbrk` calls are not modelled.
- Forward and backward pointers inside the lists of the allocator and the pool: lists are sequences.
- `sys_mbox_free`, and the overflow of `first` and `last` after 2^31 messages.
- Pbuf.Pbufs.Dechain: the count of deallocated buffers is an 8-bit number, so with 256 or a multiple of it the returned pointer is the deallocated tail; the contract states the code's result.
- `pbuf_header`, packet queues, and counts above 65535.
- `inet_aton`, `inet_ntoa`, `htonl`: easy members.
- The format-string scanner of `_doprnt` and its other conversions.
- RunLength.PutFrags: one transmission; the repetition until the debugger acknowledges is not modelled, and neither is finding the end of a packet.
- TCP, UDP, ARP, DHCP, sockets, drivers, shell and tests.

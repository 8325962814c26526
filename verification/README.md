# A verified model of the home automation kernel

The repository holds a small operating system core in C. This project models its two hardest parts in
Dafny and proves them correct.

**The heap allocator** (`kernel/memory/memory.c`): a circular, address-ordered free list that starts
at a zero-size sentinel, a roving start pointer `freep`, tail splitting on allocation and merging on
both sides when a block is given back. The headers live in the memory that is managed; here they are
three arrays indexed by header unit, unit 0 is the sentinel `base` and 1..N is the heap. The loops of
the C code are loops over these arrays. What is free and what is live is ghost state, tied to the
arrays by `Allocators.Represents`. The specification is independent of the list: the free chunks are
the maximal runs of units that no live block covers (`Tiling.Gaps`).

**The thread kernel** (`kernel/ordo3.0`): the doubly linked ready ring, the sorted sleep list, counting
semaphores with a stack of waiters and direct hand-off, message queues built on semaphores, and the
reaping of dead threads through a message queue. One `next` field threads the ring, the sleep list and
every list of waiters. The model has two levels. `KernelState` is a state machine on values: one
sequence for each list, a status for each thread, and the history that the conservation laws speak
about; its steps are the blocks of code that run with interrupts masked. `Kernels.Kernel` is the
pointer code itself, field by field, and each of its methods is proved to take the represented state
to the one the state machine names. `KernelSteps.Perform` puts the two together for one step, and
`KernelSteps.Execute` and `KernelSteps.RunKernel` for every sequence of steps: the pointer code run from
start_scheduler on represents the state that the state machine reaches, so that what is proved of all
runs of the machine holds of the code. `HeapRuns.Execute` and `HeapRuns.RunAllocator` do the same for the
allocator.

| files | content |
|---|---|
| `Units`, `Tiling`, `FreeRing`, `HeapSpec`, `Merging`, `Accounting` | header units, tilings of the heap, the sorted ring, the specification of allocation and release |
| `Allocator` | the allocator on arrays, loop by loop |
| `HeapRuns` | theorems about whole runs of the allocator |
| `Contexts`, `KernelState` | the records of the kernel, the state machine and its invariant |
| `KernelCases` | each step of the state machine, by the function that describes it |
| `KernelPlaces`, `KernelParts`, `KernelSafety`, `KernelCoins`, `KernelMail` | every step keeps the invariant |
| `KernelSwitches`, `KernelEffects` | what each step does, told by the lists and tables before and after |
| `KernelRuns`, `KernelOrder`, `KernelFairness`, `KernelLifo`, `KernelCounts`, `KernelZombies` | theorems about whole runs of the kernel |
| `Links`, `KernelSkew` | the ready ring as two link fields, exactly what `semaphore.c:149` does to it, and when |
| `KernelMemory`, `MessageMemory`, `KernelHeap` | how the state lies in memory, and what single stores do to it |
| `Kernel`, `KernelSteps` | the pointer code, and its refinement of the state machine, step by step and over whole runs |

## Line 149 of semaphore.c

`sem_give` gives a woken thread the back link of the current thread (`save->last =
current_thread->last`), while the other two insertions give it a link to the current thread. The model
keeps the code as it is when `repaired` is false and writes the right link when it is true; every
theorem holds for both values unless it says otherwise. `Links.HandOffAsWritten` states the effect
exactly: the ring stays well formed if and only if the caller was alone in it. No giver ever is, since
idle stays in the ring and never gives, so `KernelSkew.GiveSkews` and `KernelSkew.SendSkews` state the
condition that a caller can check: as written, a give breaks the ring if and only if somebody waits.
`KernelSkew.SkewReachable` is a run of four steps from start_scheduler that gets there.
`Links.RemoveMends` shows that a thread that leaves the ring restores it, so the exit paths are safe as
written; `Links.AdvanceExact`, `Links.SkewLosesThread` and `Kernels.Kernel.YieldSkewed` show what goes
wrong otherwise: the registers go to the record of the wrong thread, and a ready thread can drop out of
the ring. In the state machine this is the flag `skew`.

With `repaired` the flag never arises and the theorems about runs cover every run. With the code as
written they cover only those runs in which, after each give or send that wakes a thread, the giver
leaves the ring or another thread is inserted before the timer makes the next thread current.

## Killed threads

A kill only sets a flag, and the scheduler tests the flag of one thread, the one that comes next
(scheduler.c:239). `KernelSwitches.KillTakesEffect` says what becomes of that thread. When it dies, the
thread after it runs without a test, so that of two killed threads in a row the second one runs once
more: `KernelSwitches.ZombieRuns` gives the exact condition and `KernelZombies.KilledRunsExample` a run
that meets it.

## Model

| member | source | states |
|---|---|---|
| Units.PayloadFits | kernel/memory/memory.c:170-171 | a chunk of the computed number of units holds the request, with less than one header of slack |
| Units.PayloadInHeap | kernel/memory/memory.c:74-77 | the payload of every unit, even of the last one, starts inside the heap, because the heap size is no multiple of the header size |
| Tiling.TilesPartition | kernel/memory/memory.c:126-147 | in a tiled heap each unit lies in exactly one block |
| Tiling.FreeChunksAreGaps | kernel/memory/memory.c:126-147 | canonical form: a tiling whose free chunks are merged as far as possible has exactly the maximal uncovered runs as free chunks, so they depend on the live blocks alone |
| Tiling.GapsComplete | kernel/memory/memory.c:126-147 | conversely the maximal uncovered runs complete any separate live blocks to such a tiling |
| FreeRing.SearchStopsAt | kernel/memory/memory.c:114-124 | the search for the place of a block stops at node i if and only if node i is its address-order predecessor and the block is not itself a node |
| FreeRing.RingUnique | kernel/memory/memory.c:114-147 | an address-ordered list is determined by its set of nodes |
| Merging.Neighbours | kernel/memory/memory.c:126-138 | the test for the following chunk, read off the link, succeeds if and only if the unit after the block starts a free chunk |
| Merging.OnlyPredEndsAt | kernel/memory/memory.c:137-138 | no free chunk but the predecessor can end where the block starts |
| Merging.MergedKeys | kernel/memory/memory.c:126-146 | which chunk starts are free after each of the four combinations of merges |
| Merging.MergedLength | kernel/memory/memory.c:126-146 | how long each chunk is after the merges |
| Merging.MergedWellTiled | kernel/memory/memory.c:126-146 | all four combinations of merges keep the tiling and leave no two free chunks adjacent |
| Merging.TakenWellTiled | kernel/memory/memory.c:179-193 | taking a whole chunk or its tail keeps the tiling and leaves no two free chunks adjacent |
| HeapSpec.ChosenIs | kernel/memory/memory.c:174-197 | the chosen chunk is the one such that every chunk met before it in ring order after freep is too small |
| HeapSpec.ChosenNone | kernel/memory/memory.c:198-204 | no chunk is chosen when all are too small |
| HeapSpec.Release | kernel/memory/memory.c:147 | the next search starts at the last node below the block given back |
| Accounting.RingTotal | kernel/memory/memory.c:239-249 | the lengths along the ring add up to the free units |
| Accounting.FreePlusLive | kernel/memory/memory.c:228-252 | free units and live units add up to the heap |
| Allocators.InsertRepresents | kernel/memory/memory.c:126-147 | the links and lengths written by gFree represent the merged chunks: the list is again sorted, circular and complete |
| Allocators.TakeExact | kernel/memory/memory.c:179-183 | linking out a chunk of the exact length represents the heap with that block live |
| Allocators.TakeSplit | kernel/memory/memory.c:184-193 | cutting the tail off a chunk represents the heap with that block live |
| Allocators.NoHeaderInside | kernel/memory/memory.c:104-112 | the units of a live block hold no header other than its own |
| Allocators.Allocator.constructor | kernel/memory/memory.c:41-54 | static memory before initialisation |
| Allocators.Allocator.LivePointerAccepted | kernel/memory/memory.c:95-112 | every live pointer passes the range test and the cookie test |
| Allocators.Allocator.AbsInv | kernel/memory/memory.c:64-206 | in every valid memory the live blocks are separate, freep is a node, and the chunks of the list are the gaps |
| Allocators.Allocator.Search | kernel/memory/memory.c:114-124 | from any freep the walk ends, at the predecessor of the block |
| Allocators.Allocator.Relink | kernel/memory/memory.c:126-146 | the two merge tests and the stores behind them, as functions of the memory before |
| Allocators.Allocator.Insert | kernel/memory/memory.c:126-147 | the block leaves the live blocks, the chunks are merged, and no other header is written |
| Allocators.Allocator.GFree | kernel/memory/memory.c:84-149 | refused calls change nothing; otherwise the heap is the specified one, freep is the last node below the block, and no unit of another live block is written |
| Allocators.Allocator.FindFit | kernel/memory/memory.c:173-205 | from any freep the walk ends; it finds the specified chunk and the node before it, or reports that there is none |
| Allocators.Allocator.Take | kernel/memory/memory.c:179-196 | the block is the tail of the chunk, and no unit of another live block is written |
| Allocators.Allocator.UnlinkChunk | kernel/memory/memory.c:180-183 | a chunk of the exact length becomes live as a whole |
| Allocators.Allocator.CutTail | kernel/memory/memory.c:186-193 | the tail of a longer chunk becomes live |
| Allocators.Allocator.GMalloc | kernel/memory/memory.c:154-206 | the new heap and the pointer are the specified ones; a failed call changes nothing; live blocks are not written |
| Allocators.Allocator.InitMemory | kernel/memory/memory.c:64-79 | the first call leaves one free chunk and nothing live, later calls change nothing |
| Allocators.Allocator.SumRing | kernel/memory/memory.c:239-249 | one turn of the ring adds up every chunk once, whatever node freep is |
| Allocators.Allocator.GetGMemFree | kernel/memory/memory.c:228-252 | the result is the header size times the units that are not live, for every freep |
| Allocators.Allocator.ClientWrite | kernel/memory/memory.c:196 | a client that writes to the payload of its block leaves the allocator valid and its state unchanged |
| HeapRuns.EmptyHeap | kernel/memory/memory.c:69-77 | the initial heap is one free chunk, and satisfies the invariant |
| HeapRuns.MallocBlock | kernel/memory/memory.c:179-196 | an allocated block was free, is disjoint from every live block and holds the request |
| HeapRuns.MallocKeeps | kernel/memory/memory.c:154-206 | allocation keeps the invariant and takes the tail of one gap |
| HeapRuns.ReleaseKeeps | kernel/memory/memory.c:126-147 | release keeps the invariant, and the new gaps are the old ones with the block merged in |
| HeapRuns.RunTiles | kernel/memory/memory.c:64-206 | after every run of calls the free chunks and the live blocks tile the heap, each unit lies in exactly one of them, and freep is a node |
| HeapRuns.MallocFails | kernel/memory/memory.c:160-163 | an allocation fails if and only if the request exceeds the heap size or no free chunk is large enough |
| HeapRuns.MallocFirstFit | kernel/memory/memory.c:173-197 | the block is the tail of one chunk that is large enough while every chunk met before it after freep is too small, and freep becomes the node before it |
| HeapRuns.MallocAfterRelease | kernel/memory/memory.c:137-147 | the next request that fits is served from the chunk of the block given back, unless that was merged with the chunk before it; then that chunk comes last |
| HeapRuns.RoundTrip | kernel/memory/memory.c:114-196 | an allocation followed by the release of its block restores every chunk |
| HeapRuns.DisposeAnyOrder | kernel/memory/memory.c:126-147 | blocks may be released in any order, with the same live blocks in the end |
| HeapRuns.DisposeEverything | kernel/memory/memory.c:69-147 | releasing everything in any order after any run leaves the one initial chunk |
| HeapRuns.Fragmentation | kernel/memory/memory.c:126-146 | there is at most one more free chunk than there are live blocks |
| HeapRuns.MallocSucceeds | kernel/memory/memory.c:171-205 | a request succeeds when the free units exceed (live blocks + 1) times (units needed - 1) |
| HeapRuns.RunConserves | kernel/memory/memory.c:228-252 | after every run free and live units add up to the heap |
| HeapRuns.SameMemory | kernel/memory/memory.c:114-147 | two memories with the same live blocks have the same list, links and lengths, whatever calls led to them |
| HeapRuns.Execute | kernel/memory/memory.c:84-206 | any sequence of legal calls on the arrays leaves the heap that the specification reaches with the same calls |
| HeapRuns.RunAllocator | kernel/memory/memory.c:64-206 | the same from initMemory on: the memory after any run is tiled and coalesced |
| HeapRuns.MallocThenFree | kernel/memory/memory.c:84-206 | the round trip on the arrays: same nodes, same links, same lengths |
| Contexts.DecodeEncode | kernel/ordo3.0/scheduler.c:93 | an int survives being sent as its four bytes |
| Contexts.EncodeDecode | kernel/ordo3.0/scheduler.c:263 | four received bytes are the int they encode, and no other |
| Links.InsertRing | kernel/ordo3.0/scheduler.c:214-217 | insertion behind the current thread yields a well-formed ring, or a skewed one, by the back link that the thread gets |
| Links.HandOffAsWritten | kernel/ordo3.0/semaphore.c:144-151 | the hand-off as written keeps `last` inverse to `next` if and only if the caller was alone in the ring |
| Links.RemoveMends | kernel/ordo3.0/scheduler.c:104-117 | a thread that leaves the ring leaves it well formed, whether it was skewed or not |
| Links.Rotate | kernel/ordo3.0/scheduler.c:220 | the next thread may become current in a well-formed ring without any store |
| Links.AdvanceExact | kernel/ordo3.0/scheduler.c:219-222 | the ring seen from the next thread is well formed, and its back link names the thread to save, if and only if the ring was not skewed |
| Links.SkewLosesThread | kernel/ordo3.0/scheduler.c:104-117 | on a skewed ring, when the timer fires and the next thread leaves, the former current thread drops out |
| Links.WellFormedKeepsAll | kernel/ordo3.0/scheduler.c:104-117 | on a well-formed ring the same steps keep everybody |
| Links.LostThreadExample | kernel/ordo3.0/semaphore.c:148-151 | a concrete ring of two threads for which line 149 loses one |
| KernelSkew.GiveSkews | kernel/ordo3.0/semaphore.c:134-152 | after a give the ring is skewed if and only if somebody waited and line 149 is as written, or nobody waited and it was skewed before |
| KernelSkew.SendSkews | kernel/ordo3.0/m_queue.c:104-127 | the same for send_message, by the waiters of the queue |
| KernelSkew.SkewReachable | kernel/ordo3.0/semaphore.c:144-151 | four legal steps from start_scheduler lead to a skewed ring of three threads |
| KernelPlaces.InsertPosition | kernel/ordo3.0/scheduler.c:62-69 | a new sleeper goes behind those that wake up strictly earlier and before the others |
| KernelPlaces.DozePlaced | kernel/ordo3.0/scheduler.c:70-81 | going to sleep keeps every thread in exactly one list |
| KernelPlaces.HandOffPlaced | kernel/ordo3.0/semaphore.c:143-151 | so does a hand-off |
| KernelPlaces.ParkPlaced | kernel/ordo3.0/semaphore.c:102-107 | so does blocking at a semaphore |
| KernelPlaces.RetirePlaced | kernel/ordo3.0/scheduler.c:93-95 | so does dying, and the ring is well formed afterwards |
| KernelPlaces.WakeDuePlaced | kernel/ordo3.0/scheduler.c:209-218 | so does the wake-up loop, and one wake-up mends a skewed ring |
| KernelParts.MournedDeath | kernel/ordo3.0/scheduler.c:93 | a dying thread adds its id to the ids on the way to wait, which stay distinct names of dead threads |
| KernelParts.MournedReceipt | kernel/ordo3.0/scheduler.c:263 | a receiver takes over the first of these ids |
| KernelCoins.PostStocked | kernel/ordo3.0/m_queue.c:104-127 | sending keeps messages equal to coins plus grants, for every queue |
| KernelState.StepDefined | kernel/ordo3.0/m_queue.c:58-72 | in every state of the invariant each step is defined: in particular a receiver that got a coin finds a message |
| KernelRuns.StepInv | kernel/ordo3.0/scheduler.c:55-270 | every step keeps the invariant |
| KernelRuns.BootedInv | kernel/ordo3.0/scheduler.c:122-146 | the state after start_scheduler satisfies the invariant |
| KernelRuns.RunPlaces | kernel/ordo3.0/scheduler.c:55-253 | after every run each thread that is not reaped is in exactly one of ring, sleep list, one list of waiters and the dead; no list holds a thread twice; idle is ready |
| KernelRuns.RunMessages | kernel/ordo3.0/m_queue.c:58-127 | after every run the received messages are a prefix of the sent ones in order, the rest is queued, coins plus unfetched grants equal the queued messages, and a granted receiver finds one |
| KernelRuns.RunCoins | kernel/ordo3.0/semaphore.c:92-152 | after every run initial value plus gives equals counter plus takes granted, and threads wait only where there is no coin |
| KernelRuns.WakeDueExactly | kernel/ordo3.0/scheduler.c:208-218 | the wake-up loop moves a sleeper if and only if its time has come |
| KernelRuns.YieldWakes | kernel/ordo3.0/scheduler.c:201-218 | so in every reachable state: none too early, none overdue left behind |
| KernelRuns.ReapFreesDead | kernel/ordo3.0/scheduler.c:262-270 | wait frees a dead thread, never one that is ready, asleep or blocked |
| KernelRuns.OutstandingIds | kernel/ordo3.0/scheduler.c:87-98 | the ids queued for wait and those just received name pairwise different dead threads whose slots are still set |
| KernelOrder.DeathIsFinal | kernel/ordo3.0/scheduler.c:239-270 | a dead thread stays dead until it is reaped, and a reaped one is never touched again |
| KernelOrder.FreedAtMostOnce | kernel/ordo3.0/scheduler.c:259-270 | over every run the record of each thread is freed at most once |
| KernelSwitches.WakeDueLine | kernel/ordo3.0/scheduler.c:209-218 | the wake-up loop puts exactly the sleepers that are due behind the current thread, latest first, and leaves the others in order |
| KernelSwitches.SwitchEffect | kernel/ordo3.0/scheduler.c:55-253 | every step that ends in the scheduler, told by the lists before and after: who runs next, who dies, whom a death wakes, where the current thread goes, and that nothing else changes |
| KernelSwitches.KillTakesEffect | kernel/ordo3.0/scheduler.c:237-251 | the thread that comes first in the ring runs if and only if it was not killed; otherwise it is dead, out of the ring, and its id is the last message of the zombie queue |
| KernelSwitches.ZombieRuns | kernel/ordo3.0/scheduler.c:239-245 | a killed thread becomes current all the same if and only if it comes right behind another killed one that dies |
| KernelZombies.KilledRunsExample | kernel/ordo3.0/scheduler.c:239-245 | five legal steps from start_scheduler after which a killed thread runs |
| KernelEffects.KillEffect | kernel/ordo3.0/scheduler.c:32-48 | kill marks the thread under that id, and nothing else changes |
| KernelEffects.CreateEffect | kernel/ordo3.0/scheduler.c:155-179 | the new thread has the lowest free id, is not killed and comes right behind the current one |
| KernelEffects.ReapEffect | kernel/ordo3.0/scheduler.c:264-267 | the slot of the id received is cleared and its dead thread counts as freed, nothing else |
| KernelEffects.NewSemaphoreEffect | kernel/ordo3.0/semaphore.c:24-40 | the lowest free slot gets a semaphore with the given coins and no waiters |
| KernelEffects.DelSemaphoreEffect | kernel/ordo3.0/semaphore.c:48-71 | the semaphore is gone if nobody waits at it, otherwise nothing changes |
| KernelEffects.TakeEffect | kernel/ordo3.0/semaphore.c:87-98 | a take that does not block costs one coin and does nothing else |
| KernelEffects.GiveEffect | kernel/ordo3.0/semaphore.c:134-152 | a coin wakes the thread that blocked last, behind the current one, or is kept if nobody waits |
| KernelEffects.NewQueueEffect | kernel/ordo3.0/m_queue.c:182-197 | the lowest free slots get an empty queue and a semaphore without coins |
| KernelEffects.DelQueueEffect | kernel/ordo3.0/m_queue.c:140-176 | a queue that nobody waits at is gone with its messages and its semaphore, and all others stay; otherwise nothing changes |
| KernelEffects.SendEffect | kernel/ordo3.0/m_queue.c:91-130 | the message comes last in its queue and a coin arrives at the semaphore of that queue |
| KernelEffects.ReceiveEffect | kernel/ordo3.0/m_queue.c:58-74 | a receive that does not block costs one coin and takes the first message of its queue |
| KernelEffects.FinishEffect | kernel/ordo3.0/m_queue.c:60-74 | a receiver that was woken takes the first message of its queue and nothing else changes |
| KernelCounts.StepCoins | kernel/ordo3.0/semaphore.c:92-152 | the recorded gives of a semaphore are the give and send steps on it, for the zombies the deaths, and the takes granted and the waiters together are the requests |
| KernelCounts.StepSent | kernel/ordo3.0/m_queue.c:104-124 | the recorded history of a queue grows by the message of each send step on it, for the zombies by the ids of those who die |
| KernelCounts.RunBalance | kernel/ordo3.0/semaphore.c:92-152 | over every run the counter less the number of waiters grows by the coins given and shrinks by the requests made |
| KernelCounts.RunSent | kernel/ordo3.0/m_queue.c:104-124 | over every run the recorded history of a queue grows by what the run posts there |
| KernelCounts.PostedSends | kernel/ordo3.0/m_queue.c:91-130 | for a queue of the clients that is the list of messages of the send operations on it |
| KernelCounts.PlainCounts | kernel/ordo3.0/semaphore.c:80-156 | for a semaphore that no queue owns the coins and requests are the numbers of give and take operations on it |
| KernelFairness.StepMoved | kernel/ordo3.0/scheduler.c:201-245 | each step changes the forward distance of a ready thread by the insertions minus the advances it makes |
| KernelFairness.SchedulingBound | kernel/ordo3.0/scheduler.c:104-117 | over every run, within d advances plus one for each insertion meanwhile, a ready thread at distance d is current, or a pending kill has taken effect when it came first |
| KernelLifo.StepLifo | kernel/ordo3.0/semaphore.c:102-107 | while a thread stays blocked the threads that blocked before it stay below it, in the same order |
| KernelLifo.RunLifo | kernel/ordo3.0/semaphore.c:143-145 | over every run waiters are woken last blocked first |
| KernelMemory.UnlinkRep | kernel/ordo3.0/scheduler.c:109-114 | unlinking the current thread keeps the ring, the sleep list and all lists of waiters in memory |
| KernelMemory.InsertRep | kernel/ordo3.0/scheduler.c:214-217 | so does linking a thread in behind the current one |
| KernelMemory.SleeperRep | kernel/ordo3.0/scheduler.c:72-81 | so does linking a thread into the sleep list |
| KernelMemory.PushWaiterRep | kernel/ordo3.0/semaphore.c:106-107 | so does pushing a waiter |
| MessageMemory.MailAppend | kernel/ordo3.0/m_queue.c:114-124 | linking a cell in behind the tail pointer represents the queue with the message at its end, and leaves all other queues alone |
| MessageMemory.MailPop | kernel/ordo3.0/m_queue.c:61-71 | linking out the first cell, with the tail pointer cleared when it was the last, represents the queue without its first message |
| KernelHeap.StopsAt | kernel/ordo3.0/scheduler.c:65-69 | the position where the search of sleep stops is the position the specification names |
| KernelHeap.Unlink | kernel/ordo3.0/scheduler.c:109-114 | the stores of disable_current_thread on the link fields of all threads |
| KernelHeap.LinkBehind | kernel/ordo3.0/scheduler.c:214-217 | the stores of an insertion on the link fields of all threads |
| KernelHeap.AppendCell | kernel/ordo3.0/m_queue.c:115-124 | the stores of send_message on the fields of all queues and cells |
| KernelHeap.ReleaseCells | kernel/ordo3.0/m_queue.c:162-168 | the freeing loop ends and empties the list |
| KernelHeap.CopyOut | kernel/ordo3.0/m_queue.c:60-65 | the buffer holds the message cut off at the maximum size, and the rest of it is unchanged |
| KernelHeap.NewMessage | kernel/ordo3.0/m_queue.c:104-113 | the new cell holds exactly the bytes sent |
| KernelHeap.FreeId | kernel/ordo3.0/scheduler.c:170-171 | the loop ends at the lowest free slot |
| Kernels.Kernel.constructor | kernel/ordo3.0/scheduler.c:126-137 | empty tables, and main alone in the ring |
| Kernels.Kernel.Start | kernel/ordo3.0/scheduler.c:140-143 | idle is created and the zombies get queue 0: the state that runs start from |
| Kernels.Kernel.DisableCurrentThread | kernel/ordo3.0/scheduler.c:104-117 | the memory represents the state without the current thread in the ring |
| Kernels.Kernel.CreateThread | kernel/ordo3.0/scheduler.c:155-179 | the memory represents the state with a new thread behind the current one, under the lowest free id, which is returned |
| Kernels.Kernel.FindPlace | kernel/ordo3.0/scheduler.c:62-69 | the search of sleep ends at the specified position |
| Kernels.Kernel.LinkSleeper | kernel/ordo3.0/scheduler.c:72-81 | the memory represents the state with the thread in the sleep list |
| Kernels.Kernel.Sleep | kernel/ordo3.0/scheduler.c:55-84 | the whole of sleep refines the specification, and the registers go to the record of the sleeper |
| Kernels.Kernel.WakeAll | kernel/ordo3.0/scheduler.c:208-218 | the wake-up loop refines the specification and ends |
| Kernels.Kernel.Yield | kernel/ordo3.0/scheduler.c:201-224 | on a well-formed ring, or when a sleeper is due, the whole of yield refines the specification, and the registers go to the record of the thread that ran |
| Kernels.Kernel.YieldSkewed | kernel/ordo3.0/scheduler.c:219-222 | on a skewed ring with nobody to wake the next thread runs, but the registers go to the record of the last thread of the ring instead |
| Kernels.Kernel.Scheduler | kernel/ordo3.0/scheduler.c:231-253 | the registers go to the given record; a zombie that would run announces its death and leaves the ring instead |
| Kernels.Kernel.RetireCurrent | kernel/ordo3.0/scheduler.c:92-95 | the death message and the unlinking refine the specification |
| Kernels.Kernel.DeleteCurrentThread | kernel/ordo3.0/scheduler.c:87-98 | suicide refines the specification, and the registers go to no record of a thread |
| Kernels.Kernel.KillThread | kernel/ordo3.0/scheduler.c:32-48 | the flag of an existing thread is set; any other pid changes nothing |
| Kernels.Kernel.NewSemaphore | kernel/ordo3.0/semaphore.c:24-40 | the memory represents the state with a new semaphore in the lowest free slot, which is returned |
| Kernels.Kernel.DelSemaphore | kernel/ordo3.0/semaphore.c:48-71 | refused exactly when threads wait, and then nothing changes; otherwise the slot is cleared |
| Kernels.Kernel.SemTake | kernel/ordo3.0/semaphore.c:80-114 | takes a coin, or parks the caller on top of the waiters, saves its registers and schedules; a missing semaphore changes nothing |
| Kernels.Kernel.SemGive | kernel/ordo3.0/semaphore.c:121-156 | adds a coin, or hands it to the first waiter; a missing semaphore changes nothing |
| Kernels.Kernel.WakeWaiter | kernel/ordo3.0/semaphore.c:143-151 | the hand-off, with the back link of line 149 as written or repaired |
| Kernels.Kernel.SendMessage | kernel/ordo3.0/m_queue.c:91-130 | the bytes are queued at the end and a coin is given; a missing queue changes nothing |
| Kernels.Kernel.ReceiveMessage | kernel/ordo3.0/m_queue.c:45-79 | copies out and unlinks the first message, or blocks exactly when there is no coin, with the registers in the record of the receiver and the buffer untouched; a missing queue changes nothing |
| Kernels.Kernel.FinishReceive | kernel/ordo3.0/m_queue.c:60-78 | what a blocked receiver does when it runs again |
| Kernels.Kernel.NewMessageQueue | kernel/ordo3.0/m_queue.c:182-197 | the memory represents the state with a new empty queue and its semaphore in the lowest free slots |
| Kernels.Kernel.DelMessageQueue | kernel/ordo3.0/m_queue.c:140-176 | refused exactly when the queue is missing or a thread waits, and then no table changes; otherwise the slots of the queue and of its semaphore are cleared |
| Kernels.Kernel.Wait | kernel/ordo3.0/scheduler.c:259-263 | the int received is the id that the state machine assigns to the caller; if it blocks, its registers go to its own record |
| Kernels.Kernel.FinishWait | kernel/ordo3.0/scheduler.c:263 | the same for a caller that had blocked |
| Kernels.Kernel.Reap | kernel/ordo3.0/scheduler.c:264-267 | the slot of the dead thread is cleared |
| KernelSteps.Perform | kernel/ordo3.0/scheduler.c:32-270 | one atomic step of the pointer code is one step of the state machine and keeps its invariant; the registers go to the record of the thread that ran if the step switches, to none if that thread exits; the objects that come into use are new, but for the thread that create_thread got from malloc |
| KernelSteps.Execute | kernel/ordo3.0/scheduler.c:32-270 | every legal sequence of steps of the pointer code ends in the state that the state machine reaches with the same steps |
| KernelSteps.StartScheduler | kernel/ordo3.0/scheduler.c:122-146 | the pointer code starts in the state that every run starts from |
| KernelSteps.RunKernel | kernel/ordo3.0/scheduler.c:122-270 | so every run from start_scheduler on is a run of the state machine |
| KernelSteps.RingInMemory | kernel/ordo3.0/scheduler.c:104-117 | the forward links of the ready threads are one cycle in ring order, and the back links invert them if and only if the ring is not skewed, which never happens with the repaired link |

## Left out

Assumptions of the allocator model:

- `base` lies below the heap in address order; the size of a header is 12 or 24 bytes.
- Callers free only pointers that they got and have not given back (memory.h:29). The cookie test of gFree cannot tell a free chunk from a live one, and FreeRing.SearchStopsAt shows that the search never stops for a chunk that is already free.
- Calls are atomic: gMalloc reads `freep` at memory.c:160 before it takes the lock at line 166. The mutex and destroyMemory are not modelled.
- Pointers are header units; bytes appear in the range test, the rounding and the sums.

Assumptions of the kernel model, gathered in KernelState.Enabled:

- The steps are atomic because interrupts are masked; the nesting counter of interrupt.c is not modelled.
- After a receiver was blocked, the rest of receive_message runs with interrupts on, since reset_it clears the nesting level. The grant and the fetching of the message are two steps here, and each of them is taken to be atomic; the code does not guarantee that of the second (KernelState.Op.Finish).
- The end of wait, scheduler.c:264-267, never masks interrupts: a kill of the same id may come between the call of free and the clearing of the slot. It is taken to be atomic as well (KernelState.Op.Reap).
- The error path of del_semaphore enables interrupts without lowering the nesting level (semaphore.c:57); here it only refuses.
- del_semaphore does not check its argument (semaphore.c:53), so the semaphore is required to exist.
- Idle does nothing but yield and is not killed; main neither exits nor is killed. Nothing in the code forbids it, but it has no id, and without idle the ring would run empty.
- Client code does not use the semaphores inside message queues, nor the queue of the zombies, by number.
- A queue is not deleted while a living receiver has been granted a message that it has not fetched.
- The tables of 256 threads, semaphores and queues have a free slot when one is needed; the search loops have no bound in the code.
- Wake-up times and counters do not overflow.
- With line 149 as written, the timer does not fire on a skewed ring unless a sleeper is due. What happens if it does is the subject of Links.AdvanceExact, Links.SkewLosesThread and Kernels.Kernel.YieldSkewed.
- malloc returns memory that is not in use; a thread record is not used for another thread once it is freed.

Not modelled:

- Registers, stacks and the switch between contexts (init_ctx, switch_to_ctx, hw.c, try.c); a switch only sets which thread is current, and in `savedTo` into which record the registers went.
- Contexts.Message: the bytes of a message are a sequence fixed when the cell is built, not a buffer of their own; nothing writes to them later.
- Kernels.Kernel.ReceiveMessage: it returns when it blocks, and FinishReceive goes on from there, because a method cannot be suspended.
- Kernels.Kernel.Scheduler: names the record that the registers go to, not what they hold.
- Kernels.Kernel.Yield: requires a well-formed ring or a due sleeper, because on a ring skewed by line 149 the state machine does not follow the code any further; Kernels.Kernel.YieldSkewed gives its effect there, except when the next thread is a zombie.
- Kernels.Kernel.Reap: clears the slot; that the stack and the record are freed appears only as the status of the thread.
- kernel/ordo and kernel/ordo2.0, earlier versions of the thread kernel.
- The server: sockets, rules, sensors, actuators, parser and graphical interface.

# Kaya, verified models of the nucleus and of the pager

Kaya is an operating system for the uMPS2 machine. This project models its three phases in
Dafny and proves what its maintainers rely on.

**Phase 1, pointers.** `Pcb.dfy` and `Asl.dfy` are `pcb.c` and `asl.c` as classes whose
methods relink fields in place. A process queue represents a sequence, the active semaphore
list a map from addresses to non-empty queues, the process tree a forest; every operation is
proved against the operation on the sequence, map or forest. `Store.dfy` has them all over
one process table: free list, ready queue and semaphore queues share p_next and p_prev, so
each operation says what keeps it off the other lists.

**Phase 2, the nucleus.** `NucleusState.dfy` says what each handler does to the nucleus as a
whole; a step ends where LDST, WAIT, HALT or PANIC does. `NucleusInvariant.dfy`,
`NucleusKill.dfy` and `NucleusRuns.dfy` prove that every step keeps one invariant over the
free list, the ready queue, the semaphore queues and values, the two counters and the tree,
with MAXPROC symbolic. `NucleusClock.dfy`, `NucleusTheorems.dfy`, `NucleusService.dfy`,
`NucleusFifo.dfy`, `NucleusWakeups.dfy`, `NucleusCalls.dfy` and `NucleusValues.dfy` draw the
consequences for whole runs: conservation, semaphore coherence and the value of every
semaphore, scheduler verdicts, no starvation, first-come semaphores, exact CPU time, what
becomes of the caller of each call, and what a blocked process finds when it resumes.

`Nucleus.dfy` is the code itself, over the globals and the linked structures of phase 1.
`Rep` says that pointers, links and globals represent a state of the step machine, entry by
entry (`Names.dfy` relates lists of objects to lists of indices), and every handler is proved
to keep it and to move that state as the step machine does. The invariant is what makes this
go through: conservation is why the shared links never clash. `NucleusHandlers.dfy` follows
a process's exceptions from its SYS5 to its own handler. `Interrupts.dfy` has the bit
searches and `StateArea.dfy` the copy of processor states, `Queues.dfy` the list operations
of both levels and `Family.dfy` the forests.

**Phase 3, the pager.** `PagerState.dfy` splits UserTLBHandler and readTape at every point
where another process may run: P and V, seek, transfer, pool update, remap. Loads, stores,
TLB refills and faults of any process may come in between. `PagerInvariant.dfy` and
`PagerSteps.dfy` prove the invariant; `PagerTheorems.dfy` proves that frames, TLB, page
tables, swap pool and disk together are one flat memory per process; `PagerGuarantees.dfy`
what follows for stores, for the program image, for the disk arm and for progress.
`Words.dfy` ties the bit operations on words to arithmetic, `PagerWords.dfy` the masks and
shifts of the handler to what test wrote. `Pager.dfy` is the code on arrays, each
uninterruptible piece proved to be one step.

Two properties that one would expect fail in the code as it is, and are stated exactly:

* The ready-or-blocked test of HoneyIKilledTheKids trusts p_semAdd, which removeBlocked and
  outBlocked leave set. `NucleusKill.KillSoundIff` gives the condition under which SYS2 keeps
  the tables sound, `NucleusKill.FirstStale` what goes wrong otherwise, and `NucleusStale.dfy`
  a legal run after which, on the links, SYS2 dispatches the process it has just killed. Runs
  are otherwise over killing steps that meet the condition; past the first stale kill nothing
  is claimed.
* Killing a clock waiter V's the clock but does not lower softBlockCount, because the last
  device index is compared and the clock comes after it. `NucleusClock.TerminateExactIff`
  says when SYS2 keeps the count exact, `NucleusTheorems.SemaphoreCoherence` by how much it is
  too large on any run. By `NucleusTheorems.VerdictSound` one clock waiter killed is enough for
  the machine never to panic again: it waits for nobody instead, as on the run of
  `NucleusForsaken.WaitsForNobody`.

Where code and comments disagree the model follows the code: the end sentinel's address is
NULL, which is 0xFFFFFFFF; the process tree's sibling lists are stacks; softBlockCount is
raised by WaitForClock and WaitForIo, not by BlockHelperFunction; findFrame raises its
counter before it takes the remainder, so frame 1 is the first one used.

## Model

| member | source | states |
|---|---|---|
| Pcbs.MkEmptyProcQ | kaya/phase1/pcb.c:92-98 | the NULL tail pointer represents the empty queue |
| Pcbs.EmptyProcQ | kaya/phase1/pcb.c:100-105 | true exactly when the represented sequence is empty |
| Pcbs.HeadProcQ | kaya/phase1/pcb.c:206-219 | the first element of the represented sequence, NULL when there is none |
| Pcbs.InsertProcQ | kaya/phase1/pcb.c:107-126 | the circular doubly linked list comes to represent q + [p]; only the links of q and p are written |
| Pcbs.RemoveProcQ | kaya/phase1/pcb.c:128-150 | returns the head and leaves the list representing the rest; NULL on the empty queue; the tail pointer moves only when the queue becomes empty |
| Pcbs.OutProcQ | kaya/phase1/pcb.c:152-204 | p leaves from any position and the others keep their order; NULL and no link changed when p is not in the queue; the search loop terminates |
| Pcbs.OutTail | kaya/phase1/pcb.c:176-180 | stepping the tail pointer back and removing the head removes the old tail |
| Pcbs.OutInner | kaya/phase1/pcb.c:182-190 | removing the head of the list seen from the element before p removes p and keeps the tail pointer valid |
| Pcbs.Rotate | kaya/phase1/pcb.c:186-188 | a circular list entered with any element as tail represents the rotated sequence |
| Pcbs.Unrotate | kaya/phase1/pcb.c:186-188 | and entering it at its own tail again gives the sequence back |
| Pcbs.PcbPool.constructor | kaya/phase1/pcb.c:73-87 | initPcbs: the free list holds all maxProc fresh entries |
| Pcbs.PcbPool.AllocPcb | kaya/phase1/pcb.c:39-71 | the head of the free list with every field but the processor state cleared, exception areas included, and no longer on the list; NULL exactly when the list is empty |
| Pcbs.PcbPool.FreePcb | kaya/phase1/pcb.c:32-36 | the entry goes to the tail of the free list |
| Pcbs.Pcb.Clear | kaya/phase1/pcb.c:56-68 | every field of a reallocated entry but the processor state p_s is NULL or 0, the six exception area pointers included |
| Pcbs.EmptyChild | kaya/phase1/pcb.c:227-238 | true exactly when the represented child list is empty |
| Pcbs.InsertChild | kaya/phase1/pcb.c:240-255 | the NULL-terminated sibling list comes to represent [p] + children, given the NULL links that allocPcb leaves |
| Pcbs.RemoveChild | kaya/phase1/pcb.c:257-279 | the first child leaves and is returned, the rest stay linked in order; the child keeps its own stale links |
| Pcbs.OutChild | kaya/phase1/pcb.c:281-321 | an attached child leaves from any position, siblings keep their order, the loop terminates; NULL and nothing changed without a parent |
| Pcbs.Unlink | kaya/phase1/pcb.c:303-313 | unlinking an inner or last sibling is deletion from the child sequence |
| Pcbs.ChildrenApart | kaya/phase1/pcb.c:240-321 | in a forest no process is in two child lists and p_prnt names the list it is in |
| Pcbs.InsertChildInForest | kaya/phase1/pcb.c:240-255 | the tree stays a forest: ranks witness that no cycle arises |
| Pcbs.RemoveChildInForest | kaya/phase1/pcb.c:257-279 | the tree stays a forest |
| Pcbs.OutChildInForest | kaya/phase1/pcb.c:281-321 | the tree stays a forest, the other parents untouched |
| Asl.SemaphoreList.constructor | kaya/phase1/asl.c:27-52 | initASL: two sentinels active, maxProc descriptors free, and the map of queues empty |
| Asl.SemaphoreList.LinkSentinels | kaya/phase1/asl.c:48-51 | the two dummies bound an empty sorted list |
| Asl.SemaphoreList.SearchASL | kaya/phase1/asl.c:196-208 | returns the descriptor before the first key not below the address, never past the end sentinel; terminates; the key is found there exactly if the map has the address |
| Asl.SemaphoreList.HeadBlocked | kaya/phase1/asl.c:149-164 | the head of the address's queue, NULL if nobody waits; nothing changes |
| Asl.SemaphoreList.AllocSemd | kaya/phase1/asl.c:166-187 | pops the free stack and clears the descriptor; NULL exactly when the stack is empty |
| Asl.SemaphoreList.FreeSemd | kaya/phase1/asl.c:189-194 | pushes on the free stack |
| Asl.SemaphoreList.InsertBlocked | kaya/phase1/asl.c:54-94 | appends to the map's queue and sets p_semAdd; TRUE and nothing changed exactly when the address is inactive and all maxProc descriptors are taken |
| Asl.SemaphoreList.InsertFirst | kaya/phase1/asl.c:75-93 | the first waiter of an address gets a descriptor of its own |
| Asl.SemaphoreList.NewDescriptor | kaya/phase1/asl.c:76-87 | a new key enters the sorted list at its place and the other descriptors still hold their queues; NULL exactly when none is free |
| Asl.SemaphoreList.RemoveBlocked | kaya/phase1/asl.c:96-121 | pops the head of the address's queue; a descriptor whose queue empties goes back to the free stack, so active queues are never empty |
| Asl.SemaphoreList.OutBlocked | kaya/phase1/asl.c:123-147 | deletes p from the queue of its p_semAdd from any position; NULL and nothing changed when it is not there; p_semAdd is not cleared |
| Asl.SemaphoreList.Recycle | kaya/phase1/asl.c:109-114 | dropping the descriptor removes exactly the address's entry from the map; active and free descriptors still share out the table |
| Asl.KeyIsNext | kaya/phase1/asl.c:68 | between the sentinels, an address is active exactly if it is the key after the position that the search returns |
| Asl.KeysInsert | kaya/phase1/asl.c:82-88 | keys stay strictly ascending between the sentinels and agree with the map after an insertion |
| Asl.KeysCut | kaya/phase1/asl.c:110-113 | and after a removal |
| Family.KillOrderExact | kaya/phase2/exceptions.c:257-272 | the recursion visits exactly the live descendants of a process |
| Family.KillOrderOnce | kaya/phase2/exceptions.c:257-272 | and none of them twice |
| Family.AncestorsChain | kaya/phase2/exceptions.c:257-272 | two ancestors of one process are ancestors of each other |
| Family.SiblingsApart | kaya/phase2/exceptions.c:257-272 | different children of one process have no descendant in common |
| Family.AddChildKeeps | kaya/phase2/exceptions.c:234 | creating a child keeps the live processes a forest |
| Family.PruneKeeps | kaya/phase2/exceptions.c:269-278 | taking a subtree out keeps the survivors a forest |
| NucleusKill.KillExact | kaya/phase2/exceptions.c:257-306 | given accurate p_semAdd on strict descendants: precisely the running process and its live descendants are freed, each once; every queue keeps the survivors in order; processCount drops by their number; the table invariant, semaphore values included, holds with nobody running |
| NucleusKill.KillTree | kaya/phase2/exceptions.c:257-306 | the subtree is gone, parents of survivors are unchanged, and only the killed process's parent loses a child |
| NucleusKill.KillSoundIff | kaya/phase2/exceptions.c:257-306 | the tables are sound after every single death of the kill if and only if p_semAdd is NULL on every ready strict descendant, which could be checked before the call |
| NucleusKill.FirstStale | kaya/phase2/exceptions.c:280-306 | otherwise the first stale descendant in the order of the kill is reached with sound tables, and freeing it puts a process on the free list that is still in the ready queue |
| NucleusKill.KillAllCore | kaya/phase2/exceptions.c:257-306 | killing in this order keeps the invariant at every intermediate step |
| NucleusKill.KillBlockedCore | kaya/phase2/exceptions.c:285-302 | killing one blocked process keeps value, queue and softBlockCount in agreement |
| NucleusKill.KillReadyCore | kaya/phase2/exceptions.c:280-283 | killing one ready process with accurate p_semAdd keeps the invariant |
| NucleusRuns.BlockingSucceeds | kaya/phase1/asl.c:76-80 | pigeonhole: whenever a process runs, fewer than maxProc descriptors are active, so insertBlocked cannot fail although BlockHelperFunction ignores its result |
| NucleusRuns.CreateSound | kaya/phase2/exceptions.c:216-241 | SYS1 keeps the nucleus invariant, out of entries or not |
| NucleusRuns.TerminateSound | kaya/phase2/exceptions.c:244-255 | SYS2 keeps it, given the guard of KillSoundIff |
| NucleusRuns.VerhogenSound | kaya/phase2/exceptions.c:309-335 | SYS3 keeps it |
| NucleusRuns.PasserenSound | kaya/phase2/exceptions.c:338-361 | SYS4 keeps it, blocking or not |
| NucleusRuns.WaitForClockSound | kaya/phase2/exceptions.c:415-426 | SYS7 keeps it, and always blocks |
| NucleusRuns.WaitForIoSound | kaya/phase2/exceptions.c:429-465 | SYS8 keeps it, also where it kills the caller |
| NucleusRuns.BlockHelperSound | kaya/phase2/exceptions.c:471-486 | blocking the running process keeps it |
| NucleusRuns.PltSound | kaya/phase2/interrupts.c:242-253 | the end of a time slice keeps it |
| NucleusRuns.TimerSound | kaya/phase2/interrupts.c:255-274 | waking every clock waiter keeps it |
| NucleusRuns.WakeDeviceSound | kaya/phase2/interrupts.c:109-142 | a device interrupt keeps it, waiter or not |
| NucleusRuns.ExitSound | kaya/phase2/interrupts.c:276-294 | leaving an interrupt keeps it |
| NucleusRuns.SchedulerSound | kaya/phase2/scheduler.c:34-83 | dispatching or giving a verdict keeps it |
| NucleusRuns.HandleSound | kaya/phase2/exceptions.c:106-163 | every system call and passed-up exception keeps it |
| NucleusRuns.StepSound | kaya/phase2/interrupts.c:54-169 | every event that enters the nucleus keeps it |
| NucleusRuns.RunSound | kaya/phase2/exceptions.c:59-165 | so does every run |
| NucleusTheorems.BootSound | kaya/phase2/initial.c:66-95 | main establishes it |
| NucleusTheorems.FirstTurnIs | kaya/phase2/initial.c:66-95 | the state main ends in: process 0 alone, running in its initial state, no time used, no areas named, all 49 semaphores 0 |
| NucleusTheorems.Conservation | kaya/phase1/pcb.c:28-87 | on every run from boot each table entry is in exactly one of free list, ready queue, one semaphore's queue and currentProcess, nowhere twice, and processCount is the number not free |
| NucleusClock.TerminateCounts | kaya/phase2/exceptions.c:285-302 | SYS2 leaves softBlockCount too large by exactly the clock waiters it kills |
| NucleusClock.TerminateExactIff | kaya/phase2/exceptions.c:293-302 | SYS2 keeps softBlockCount equal to the number of device and clock waiters if and only if nobody it kills waits on the clock |
| NucleusClock.StepCounts | kaya/phase2/exceptions.c:284-302 | every other event leaves the excess of softBlockCount alone |
| NucleusClock.RunCounts | kaya/phase2/exceptions.c:284-302 | on every run the excess grows by exactly the clock waiters that the run kills |
| NucleusTheorems.SemaphoreCoherence | kaya/phase2/exceptions.c:284-361 | on every run from boot: user semaphores have max(0, -value) waiters, devices at most that many, the clock -value with value <= 0; softBlockCount is the number of device and clock waiters plus the number of clock waiters killed on the run |
| NucleusValues.TerminateValue | kaya/phase2/exceptions.c:285-302 | SYS2 gives every semaphore but the devices' back one for each of its waiters killed |
| NucleusValues.StepValue | kaya/phase2/exceptions.c:309-465 | by how much each event changes each semaphore's value: 1 for a V or the device's own interrupt, -1 for a P, SYS7 on semaphore 48 or SYS8 on semaphore (line - 3) * 8 + dev, plus 8 for a terminal read; the tick resets semaphore 48; nothing else does anything |
| NucleusValues.RunValue | kaya/phase2/exceptions.c:309-465 | on every run every semaphore's value is what it was plus all that was done to it |
| NucleusTheorems.VerdictSound | kaya/phase2/scheduler.c:47-74 | HALT only with every entry free; PANIC only with every live process on a non-nucleus semaphore, and only on runs that have killed no clock waiter; with processes alive and nobody on a device or the clock, the scheduler that finds nobody ready WAITs for nobody instead of PANICking if and only if the run has killed a clock waiter |
| NucleusForsaken.WaitsForNobody | kaya/phase2/scheduler.c:64-74 | a legal run of eight events from boot after which the machine waits although no process waits for a device or the clock |
| NucleusTheorems.RunVerdict | kaya/phase2/scheduler.c:47-74 | the scheduler's tests hold in every stopped or waiting state |
| NucleusTheorems.NothingWakes | kaya/phase2/interrupts.c:109-142 | with nobody ready and nobody on a device or the clock, no sequence of timer or device interrupts makes any process ready |
| NucleusTheorems.PanicIsFinal | kaya/phase2/scheduler.c:59-62 | on every run from boot that ends in PANIC that is so |
| ProcessStore.Store.constructor | kaya/phase2/initial.c:66-70 | initPcbs and initASL leave every table entry on the free list, every queue empty and nobody in a family |
| ProcessStore.Store.PutReady | kaya/phase1/pcb.c:107-126 | insertProcQ on the ready queue: a process in no list enters it, and free list, semaphore queues and tree, threaded through the same table, still represent what they did |
| ProcessStore.Store.TakeReady | kaya/phase1/pcb.c:128-150 | removeProcQ on the ready queue, the other lists intact |
| ProcessStore.Store.OutReady | kaya/phase1/pcb.c:152-204 | outProcQ on the ready queue, the other lists intact |
| ProcessStore.Store.FreePcb | kaya/phase1/pcb.c:32-36 | freePcb of a process in no list, the other lists intact |
| ProcessStore.Store.AllocPcb | kaya/phase1/pcb.c:39-71 | allocPcb: clearing the head of the free list disturbs no queue, and no family as long as it is in none |
| ProcessStore.Store.InsertBlocked | kaya/phase1/asl.c:54-94 | insertBlocked of a process in no list, the other lists intact; which processes are blocked grows by it |
| ProcessStore.Store.RemoveBlocked | kaya/phase1/asl.c:96-121 | removeBlocked: the head of the queue is in no list any more, the others are intact |
| ProcessStore.Store.OutBlocked | kaya/phase1/asl.c:123-147 | outBlocked of any process: it is in no semaphore queue any more, the other lists are intact |
| ProcessStore.Store.InsertChild | kaya/phase1/pcb.c:240-255 | insertChild of an unattached process: the tree is a forest again, the queues are intact |
| ProcessStore.Store.RemoveChild | kaya/phase1/pcb.c:257-279 | removeChild: the tree is a forest again, the queues are intact |
| ProcessStore.Store.OutChild | kaya/phase1/pcb.c:281-321 | outChild: the tree is a forest again, the queues are intact |
| NucleusCode.Nucleus.Scheduler | kaya/phase2/scheduler.c:34-83 | removeProcQ's process is dispatched, or HALT, PANIC, WAIT: the links and globals afterwards represent the tables of the verified step |
| NucleusCode.Nucleus.CreateProcess | kaya/phase2/exceptions.c:216-241 | allocPcb, state copy, insertChild and insertProcQ on the shared links come to the verified step; v0 is -1 if all maxProc entries were in use and 0 otherwise |
| NucleusCode.Nucleus.HoneyIKilledTheKids | kaya/phase2/exceptions.c:257-306 | given the test is right for the progeny, loop and recursion on the links kill exactly the subtree in child-first order, and the child lists of others are untouched |
| NucleusCode.Nucleus.KillFirst | kaya/phase2/exceptions.c:269-272 | one turn of the loop: the first child that is left goes with all its progeny |
| NucleusCode.Nucleus.KillThis | kaya/phase2/exceptions.c:274-305 | one process leaves its parent or its queue, is counted off and freed |
| NucleusCode.Nucleus.Depart | kaya/phase2/exceptions.c:274-302 | the three branches of the kill: tree, ready queue, semaphore queue |
| NucleusCode.Nucleus.LeaveSemaphore | kaya/phase2/exceptions.c:285-302 | outBlocked, then the count for a device or a V for any other semaphore |
| NucleusCode.Nucleus.TerminateProcess | kaya/phase2/exceptions.c:244-255 | the whole of SYS2, given the guard of KillSoundIff |
| NucleusCode.Nucleus.Verhogen | kaya/phase2/exceptions.c:309-335 | the whole of SYS3 |
| NucleusCode.Nucleus.Passeren | kaya/phase2/exceptions.c:338-361 | the whole of SYS4 |
| NucleusCode.Nucleus.BlockHelper | kaya/phase2/exceptions.c:471-486 | time charged, state saved, caller queued, next process scheduled; that insertBlocked's result is ignored makes no difference |
| NucleusCode.Nucleus.ExceptionStateVec | kaya/phase2/exceptions.c:364-395 | the whole of SYS5: with neither area named, old and new area go into their own fields of the table entry, at the type given; else the kill |
| NucleusCode.Nucleus.WaitForClock | kaya/phase2/exceptions.c:415-426 | the whole of SYS7 |
| NucleusCode.Nucleus.WaitForIo | kaya/phase2/exceptions.c:429-465 | the whole of SYS8 with its index computation |
| NucleusCode.Nucleus.PassUpOrDie | kaya/phase2/exceptions.c:488-512 | the exception's state is stored where the entry's old area of that type points, and the state that its new area points to is loaded; or the process dies and no area changes |
| NucleusCode.Nucleus.ProgramTrapHandler | kaya/phase2/exceptions.c:167-179 | type 1, with the state in the program trap area |
| NucleusCode.Nucleus.TLBManagementHandler | kaya/phase2/exceptions.c:181-190 | type 0, with the state in the TLB management area |
| NucleusCode.Nucleus.SyscallHandler | kaya/phase2/exceptions.c:59-165 | by the number in a0, 1 to 8 and the rest, on the registers themselves: which handler runs with which of a1, a2, a3; the pc moves by 4 first; in user mode 1 to 8 are copied to the program trap area with cause 0x28, pc on the SYSCALL, and passed up as type 1 |
| NucleusCode.Nucleus.PLTInterruptHandler | kaya/phase2/interrupts.c:242-253 | the turn is charged and the process goes to the tail |
| NucleusCode.Nucleus.ITInterruptHandler | kaya/phase2/interrupts.c:255-274 | the wake-up loop empties the clock's queue in order and resets its value |
| NucleusCode.Nucleus.WakeNext | kaya/phase2/interrupts.c:264-271 | one turn of it: removeBlocked finds somebody, and insertProcQ, which is given the result without a test for NULL, puts it on the ready queue |
| NucleusCode.Nucleus.RaiseDevice | kaya/phase2/interrupts.c:93-163 | semaphore (line - 3) * 8 + dev is V'ed, or that plus 8 for a terminal whose transmitter reads READY; its head waiter gets the transmitter's status word for a terminal that does not, and the status register otherwise; 1 is written to the command register exactly if the value was negative |
| NucleusCode.Nucleus.ExitInterruptHandler | kaya/phase2/interrupts.c:276-294 | back to the interrupted process, or to the scheduler if there was none |
| NucleusCode.Nucleus.InterruptHandler | kaya/phase2/interrupts.c:54-169 | the lowest pending line, and on it the lowest pending device, is the one handled |
| NucleusCode.Nucleus.ZeroSemaphores | kaya/phase2/initial.c:77-80 | the loop zeroes all 49 semaphores and nothing else |
| NucleusCode.Nucleus.Start | kaya/phase2/initial.c:77-95 | semaphores, first process, scheduler, over freshly initialised structures |
| NucleusCode.StartUp | kaya/phase2/initial.c:49-96 | main allocates everything and ends in the boot state of the step machine |
| NucleusStale.StaleNucleus | kaya/phase2/exceptions.c:280 | after SYS1, the end of a time slice, P and V, run by these handlers from main, the tables are sound and the ready child has a stale p_semAdd |
| NucleusStale.KillStale | kaya/phase2/exceptions.c:285-305 | its kill takes it off no queue and frees it |
| NucleusStale.FreeAndDispatch | kaya/phase1/pcb.c:128-150 | freePcb of the parent and removeProcQ on the ready queue then work on one ring of links |
| NucleusStale.DispatchesTheDead | kaya/phase2/exceptions.c:244-306 | SYS2 by the parent, on the links: the scheduler dispatches the parent just killed, with processCount 0, and the free list no longer is a queue |
| NucleusCode.CallMeans | kaya/phase2/exceptions.c:110-163 | what each number in a0 asks for, in user mode and in kernel mode |
| NucleusCode.Killed | kaya/phase2/exceptions.c:274-305 | a process whose p_semAdd is right is in no list when freePcb gets it |
| NucleusCode.ChildKilled | kaya/phase2/exceptions.c:269-272 | the loop invariant of the kill: progeny of the children done are dead, the rest is as before |
| StateAreas.CopyState | kaya/phase2/exceptions.c:514-532 | asid, cause, status, pc and all 31 registers are copied, also from an area to itself, and the source is left as it was |
| Interrupts.DetermineLine | kaya/phase2/interrupts.c:171-204 | the lowest line whose bit is set, lines below it clear |
| Interrupts.DetermineDevice | kaya/phase2/interrupts.c:206-240 | the lowest device whose bit is set, devices below it clear |
| Interrupts.LineBit | kaya/phase2/interrupts.c:171-204 | line i is bit 8 + i of the cause register |
| Interrupts.DeviceBit | kaya/phase2/interrupts.c:206-240 | device i is bit i of the bit map |
| Interrupts.SearchTest | kaya/phase2/interrupts.c:188-201 | masking once or again never changes the tested bit |
| NucleusService.StepFair | kaya/phase2/scheduler.c:47-81 | in one step a ready process stays ready and no further from the head, strictly nearer on a dispatch, unless it runs or is killed |
| NucleusService.NoStarvation | kaya/phase2/scheduler.c:14-15 | a process with k others ahead runs, or is killed, on every run with more than k dispatches |
| NucleusService.ServedInTurn | kaya/phase2/scheduler.c:14-15 | with k others ahead, a process runs, or is killed, on every run on which more than k turns end, whether by the timer or because the caller waits or dies |
| NucleusService.CpuTimeExact | kaya/phase2/exceptions.c:202-213 | over any run a process survives, its total plus its open turn grows by exactly the time that passed while it ran |
| NucleusService.BootTimed | kaya/phase2/initial.c:82-95 | when main is done no time has been charged |
| NucleusService.RunTimed | kaya/phase2/exceptions.c:202-213 | and every run charges each moment to one process at most |
| NucleusService.CpuTimeBounded | kaya/phase2/scheduler.c:78-81 | on every run from boot, all totals plus the open turn never exceed the time that has passed |
| NucleusCalls.GetCpuTimeGrows | kaya/phase2/exceptions.c:398-412 | two SYS6 results differ by exactly the time the caller ran in between |
| NucleusCalls.GetCpuTimeFromBirth | kaya/phase2/exceptions.c:406-410 | a SYS6 result is all the time the process has run since SYS1 made it |
| NucleusCalls.CreateReports | kaya/phase2/exceptions.c:228-240 | SYS1 answers -1 exactly with maxProc processes alive, having done nothing, and 0 otherwise, with one more alive |
| NucleusCalls.CreatedRuns | kaya/phase2/exceptions.c:232-238 | the child first runs in exactly the state named by SYS1 |
| NucleusCalls.BlockedResumes | kaya/phase2/exceptions.c:481 | a process not waiting for a device next runs in its saved state, whatever happens meanwhile |
| NucleusCalls.PasserenResumes | kaya/phase2/exceptions.c:352-355 | a process blocked by SYS4 resumes in the state it made the call with |
| NucleusCalls.WaitForClockResumes | kaya/phase2/exceptions.c:415-426 | so does one blocked by SYS7 |
| NucleusCalls.CallReturns | kaya/phase2/exceptions.c:193-200 | a call that neither blocks nor kills goes back to its caller at once, in the state of the call but for the result in v0, or in the handler's state |
| NucleusCalls.CallersFate | kaya/phase2/exceptions.c:110-163 | for each of the nine kinds of call, exactly when the caller goes on, when and on which semaphore it waits, and when it dies |
| NucleusCalls.InterruptsInvisible | kaya/phase2/interrupts.c:276-294 | over any number of timer and device interrupts the running process keeps running, in the state last interrupted, in the same turn with the same total, and nobody in the ready queue is overtaken |
| NucleusFifo.StepLine | kaya/phase2/exceptions.c:309-335 | in one step a waiter of any semaphore never falls back; it moves up by one on a V or on an interrupt of its device, and is let go with all others at a clock tick |
| NucleusFifo.FirstComeFirstServed | kaya/phase2/exceptions.c:323-330 | with k ahead of it, a waiter is released, or killed, on every run with more than k V operations on its semaphore or interrupts of its device |
| NucleusFifo.ClockServesAll | kaya/phase2/interrupts.c:255-274 | a process that waits for the clock is released, or killed, on every run with a tick |
| NucleusCalls.NamedForGood | kaya/phase2/exceptions.c:364-395 | areas once named for a kind of exception stay on every run the process survives: any further SYS5 of that kind would kill it, and its exceptions of that kind are passed up exactly if both areas were named |
| NucleusCalls.VectorStored | kaya/phase2/exceptions.c:384-390 | SYS5 records old area as old and new as new, for the caller and that type, and nothing else |
| NucleusHandlers.ExceptionPassedUp | kaya/phase2/exceptions.c:364-512 | end to end: at any time after its SYS5, an exception of that type of a process still alive is stored at the old area's address and the state at the new area's is loaded |
| NucleusHandlers.ExceptionKills | kaya/phase2/exceptions.c:505-506 | unless only one of the two was named: then it dies |
| NucleusWakeups.IoIndexInjective | kaya/phase2/exceptions.c:442-450 | line, device and sub-device are recovered from the semaphore index, which lies in 0..47 |
| NucleusWakeups.StepStillWaits | kaya/phase2/interrupts.c:113-142 | a process on a device semaphore keeps waiting until that very device interrupts |
| NucleusWakeups.WokenReady | kaya/phase2/interrupts.c:115-141 | the interrupt that wakes it makes it ready or runs it at once |
| NucleusWakeups.StepKept | kaya/phase2/exceptions.c:481 | no step touches the saved state of another process, v0 at its wake-up apart |
| NucleusWakeups.ReadyResumes | kaya/phase2/scheduler.c:78-81 | a ready process next runs in its saved state |
| NucleusWakeups.DeviceResumes | kaya/phase2/interrupts.c:117-138 | a device waiter next runs in its saved state with v0 replaced by the status of the interrupt that woke it, one of that very device |
| NucleusWakeups.WaitForIoReturnsStatus | kaya/phase2/exceptions.c:429-469 | SYS8 end to end: the caller next runs where it left off, v0 the status of the interrupt that woke it, which came from the very (sub-)device it named |
| Words.XorBit | kaya/phase3/pager.c:109 | XOR with one bit, computed bit by bit, subtracts the bit if it was set and adds it if not |
| Words.OrBit | kaya/phase3/pager.c:170 | OR with one bit adds it only if it was clear |
| Words.AndMask | kaya/phase3/pager.c:170 | AND with a mask of ones is the remainder |
| Words.Field | kaya/phase3/pager.c:32-47 | masking and shifting right takes out a field: division and remainder by powers of two |
| Words.OrApart | kaya/phase3/initProc.c:104-109 | OR of words without a common bit is their sum |
| PagerWords.Fields | kaya/phase3/pager.c:32-47 | the handler's four masks and shifts give ASID, exception code, segment and page |
| PagerWords.HandlerReadsEntryHi | kaya/phase3/initProc.c:101-109 | from the entryHi that test wrote for entry i the handler gets back its process and kuseg2, and the index i if and only if i is not the last entry, the stack page's |
| PagerInvariant.WordOps | kaya/phase3/pager.c:109-170 | the pager's entries as numbers are what its XOR, OR and AND on words compute |
| PagerInvariant.Bits | kaya/phase3/pager.c:109 | XOR with VALIDON clears a set bit and touches no other; OR sets it without carrying |
| PagerInvariant.RemapFrame | kaya/phase3/pager.c:170 | frame address plus flags carries nowhere, and the frame can be read back from the entry |
| PagerInvariant.BlockOfInjective | kaya/phase3/initProc.c:286-313 | two pages share a disk block if and only if they are one page, or two pages past 30 of one process; so pages 0 to 31 never share one |
| PagerInvariant.BlockPlace | kaya/phase3/initProc.c:286-313 | pages 0 to 30 of process a are cylinders 0 to 30, sector a - 1, head 0 |
| PagerInvariant.InitialInv | kaya/phase3/initProc.c:75-107 | test's initialisation satisfies the pager invariant |
| PagerInvariant.LeftAlone | kaya/phase3/pager.c:50-177 | a process in the middle of the handler or of readTape may rely on its facts as long as what it uses is unchanged |
| PagerSteps.ChooseInv | kaya/phase3/pager.c:70-111 | choosing a frame, invalidating its page and TLBCLR keep the invariant |
| PagerSteps.EvictWrites | kaya/phase3/pager.c:122-124 | the write-back hits exactly the victim's block, (page, asid - 1, 0), with its frame's contents, and disturbs nobody |
| PagerSteps.FetchReads | kaya/phase3/pager.c:143-145 | the read brings exactly the faulting page's block, (page, asid - 1, 0), into the frame, and disturbs nobody |
| PagerSteps.TapeWrites | kaya/phase3/initProc.c:234-236 | tape block i goes to exactly block (i, asid - 1, 0), and disturbs nobody |
| PagerSteps.PoolInv | kaya/phase3/pager.c:152-154 | entering the page in the swap pool keeps the invariant |
| PagerSteps.TableInv | kaya/phase3/pager.c:169-172 | so does entering it in the page table, with TLBCLR |
| PagerSteps.AdvanceInv | kaya/phase3/pager.c:50-177 | every move of a handler or tape reader, anywhere between moves of others, keeps the invariant |
| PagerSteps.StepInv | kaya/phase3/pager.c:15-183 | so does every load, store, TLB refill and fault |
| PagerTheorems.ChooseFlat | kaya/phase3/pager.c:105-111 | an evicted page keeps its contents: they are still in the frame |
| PagerTheorems.EvictFlat | kaya/phase3/pager.c:113-128 | writing back changes no page |
| PagerTheorems.FetchFlat | kaya/phase3/pager.c:135-149 | filling the frame changes no page |
| PagerTheorems.TableFlat | kaya/phase3/pager.c:166-173 | mapping the filled frame changes no page |
| PagerTheorems.StoreFlat | kaya/phase3/pager.c:105-111 | a store changes one word of one page: no other page, resident or leaving, shares the frame |
| PagerTheorems.LoadFlat | kaya/phase3/pager.c:170 | a load returns the flat memory's word |
| PagerTheorems.TapeFlat | kaya/phase3/initProc.c:221-256 | a tape write fills one page of the flat memory |
| PagerTheorems.StepFlat | kaya/phase3/pager.c:15-183 | every step of the pager is a step, or no step, of the flat memory |
| PagerTheorems.RunInv | kaya/phase3/pager.c:15-183 | the invariant holds on every run |
| PagerTheorems.PagingInvisible | kaya/phase3/pager.c:15-183 | on every interleaving, all words loaded and the final memory are those of one flat memory given the same loads and stores |
| PagerGuarantees.PoolIsInverse | kaya/phase3/pager.c:151-173 | while swapmutex is free, frame f names page v if and only if v's entry is valid and points to f |
| PagerGuarantees.NoSharedFrame | kaya/phase3/pager.c:151-173 | at every moment, no two valid entries share a frame |
| PagerGuarantees.EvictionClears | kaya/phase3/pager.c:105-110 | on every reachable eviction the XOR clears a set bit, and the page can no longer be reached |
| PagerGuarantees.RemapExact | kaya/phase3/pager.c:169-171 | on every reachable remap the entry is frame address, 4096 times the frame's page number, plus 0x600 for dirty and valid |
| PagerGuarantees.FaultServed | kaya/phase3/pager.c:176-181 | when the handler returns, the page is resident and the retried access hits |
| PagerGuarantees.TransfersAtomic | kaya/phase3/pager.c:113-149 | at every READBLK and WRITEBLK the arm is at the cylinder that same process sought, and nobody else is transferring |
| PagerGuarantees.StoreKept | kaya/phase3/pager.c:105-149 | a stored word is what the next load returns, across any evictions by anybody in between |
| PagerGuarantees.TapeCopied | kaya/phase3/initProc.c:221-256 | the blocks readTape has passed are on the disk |
| PagerGuarantees.TapeFinished | kaya/phase3/initProc.c:221-256 | when a process leaves readTape all its tape blocks are in its memory |
| PagerGuarantees.ProgramLoaded | kaya/phase3/initProc.c:184-195 | on every run since test, a word never stored to reads as the tape has it |
| PagerGuarantees.NoDeadlock | kaya/phase3/pager.c:51-177 | while any process is in the handler or readTape, some such process can move |
| PagerGuarantees.MoveCounts | kaya/phase3/pager.c:51-177 | every move brings its process strictly nearer to user code |
| PagerGuarantees.Quiesces | kaya/phase3/pager.c:51-177 | from every reachable state all handlers and tape readers can finish, within a bounded number of moves |
| PagerCode.Pager.Test | kaya/phase3/initProc.c:75-110 | the pool and page-table loops establish the initial state of the pager, and every entryHi is the one of its page |
| PagerCode.Pager.FreeFrames | kaya/phase3/initProc.c:75-80 | every frame is marked unoccupied |
| PagerCode.Pager.FillTables | kaya/phase3/initProc.c:91-110 | all 32 entries of every process are dirty and invalid and carry their page number and ASID, the last one the stack page's |
| PagerCode.Pager.Invalidate | kaya/phase3/pager.c:109-110 | one entry loses its valid bit and the TLB is empty |
| PagerCode.Pager.ChooseFrame | kaya/phase3/pager.c:70-111 | the atomic piece from findFrame to TLBCLR is one step of the machine |
| PagerCode.Pager.WriteBack | kaya/phase3/pager.c:113-128 | block (page, asid - 1, 0) of the victim gets the frame's contents, no page changes, and the disk mutex is free again |
| PagerCode.Pager.ReadIn | kaya/phase3/pager.c:135-149 | the frame gets block (page, asid - 1, 0), no page changes, and the disk mutex is free again |
| PagerCode.Pager.UpdatePool | kaya/phase3/pager.c:151-154 | one step of the machine |
| PagerCode.Pager.UpdateTable | kaya/phase3/pager.c:166-173 | one step of the machine |
| PagerCode.Pager.BringIn | kaya/phase3/pager.c:70-149 | from the choice of the frame to the page in it, with the whole new state |
| PagerCode.Pager.MapPage | kaya/phase3/pager.c:151-177 | the page is entered everywhere and the swap pool mutex given back |
| PagerCode.Pager.UserTLBHandler | kaya/phase3/pager.c:15-183 | uninterrupted: for exception codes 2 and 3 the page in bits 12 to 29 of s_asid, of the process in bits 6 to 11 of entryHi, is resident in the next frame round-robin, in pool and table, its owner written back, and every page of every process as it was; other codes change nothing here |
| PagerCode.Pager.StoreTapeBlock | kaya/phase3/initProc.c:223-240 | tape block i reaches disk block (i, asid - 1, 0) |
| PagerCode.Pager.ReadTape | kaya/phase3/initProc.c:204-257 | the loop terminates with tape block i at cylinder i, sector asid - 1, head 0 for every i, and every other block as it was |
| PagerCode.CopiedAt | kaya/phase3/initProc.c:204-257 | so for any number of blocks copied |

## Left out

- NucleusKill.KillExact: needs accurate p_semAdd on strict descendants; NucleusKill.KillSoundIff shows the condition cannot be dropped.
- NucleusRuns.StepSound: user P and V name addresses strictly between the sentinels and outside the nucleus's own array, and SYS5, SYS8 arguments are in range; the code does not check them.
- NucleusRuns.StepSound: a process may set a semaphore word only while nobody waits on it, and to a value that is not negative; other stores to semaphores are a process's own mistake.
- NucleusTheorems.SemaphoreCoherence: semaphore values, counters and times are unbounded; 32-bit overflow is not modelled.
- NucleusWakeups.WaitForIoReturnsStatus: assumes that a receive is only asked of terminals, and that a terminal interrupt counts as a receive exactly when its transmitter reads READY, as the code does; which sub-device really interrupted is the hardware's business.
- NucleusCode.Nucleus.InterruptHandler: line 0 and a local timer interrupt with nobody running do not occur; the window between enabling interrupts and clearing currentProcess before WAIT is not modelled; nor is loading the two timers.
- NucleusCode.Nucleus.PLTInterruptHandler: the interrupted state is not saved by the code, so nothing is claimed about where a preempted process resumes.
- NucleusCode.Nucleus.PassUpOrDie: processor state areas are words of memory known by their address only, so that two areas never overlap in part; one that nobody has stored holds an arbitrary state.
- Asl.SemaphoreList.InsertBlocked: addresses are below 0xFFFFFFFF; p_semAdd is an address, not a pointer to an integer.
- NucleusCode.Nucleus.TerminateProcess: needs accurate p_semAdd on strict descendants; without it the lists share links, and only the run of NucleusStale.DispatchesTheDead is followed on them.
- NucleusCode.Nucleus.SyscallHandler: a SYS5 with a negative type, and arguments that user semaphores may not have, are excluded as for the runs.
- PagerCode.Pager.UserTLBHandler: faults in kuseg2 only; runs with both mutexes free and without interruption; PagerTheorems.PagingInvisible is the interleaved statement, over the same pieces.
- PagerTheorems.PagingInvisible: kuseg2 pages 0 to 30; the handler's number of the stack page, 0x3FFFF, lies outside the tables (PagerWords.HandlerReadsEntryHi), and kuseg3 is indexed by inconsistent numbers in the code. P and V are locks here; the nucleus part proves their queues.
- PagerInvariant.RemapFrame: the frame pool starts on a page boundary, as RAM does, and addresses stay below 2^32.
- PagerInvariant.BlockOfInjective: the disk has at least as many sectors as there are processes, and 32 cylinders.
- PagerGuarantees.TapeFinished: tapes hold at most 31 blocks, each READY; tape and disk errors are not modelled.
- findFrame: its counter is unbounded, so the signed overflow of a very long run is not modelled.
- PagerGuarantees.Quiesces: some order of moves finishes; that a particular process gets a mutex in turn is the nucleus's queueing and is not repeated here.
- PagerCode.Pager.Test: of the 48 device mutexes only the backing store's; the ksegOS and kuseg3 tables, table headers, segment table and the SYS1 calls of test, and uProcInit's handler set-up, are straight-line assignments.
- sysSupport.c: terminal output and stubs.
- p1test.c, p2test.c and the phase 3 testers: tests and user programs.
- initializeNewArea, debug and dummy functions: straight-line assignments.

# A verified model of the PandOS kernel

This project models a small teaching kernel for the uRISCV machine and proves what its data
structures, its nucleus and its demand pager keep over whole runs. It has three linked parts.

1. **Kernel data.** `Listx` is the circular intrusive list over arrays of `next` and `prev`
   links, with ghost sequences for what each list holds. `Pcbs` (the PCB free list, process
   queues and process tree) and `Asls` (semaphore descriptors) are built on it. One link per PCB
   serves the free list, the ready queue and the semaphore queues, as in `p_list`; MAXPROC is a
   parameter.
2. **The nucleus.** `Nuclei.Nucleus` holds the kernel's global variables; each handler is a
   method proved to make exactly one step of the state machine in `KernelSteps`, over the
   abstract state `K` of `KernelState`. `killProcess` is a recursive method proved to remove
   exactly a subtree (`Forest`, `Killing`). `Runs` gives the invariant every run keeps;
   `Semaphores`, `Lives`, `Waking`, `Verdict` and `ReadyOrder` prove what whole runs guarantee,
   `Undo` what one call takes back of another. `Environment` says exactly what programs and devices
   owe the kernel, and `Scenarios` gives runs from boot in which they do not pay, or in which the
   kernel does not do what one would expect. `Machine` runs the handlers one after the other and
   proves that they make the runs of `Runs`.
3. **The support level.** `Pagers.Pager` is the pager's data, changed in place by the pieces of
   code between its blocking points. `Paging` interleaves these pieces with the loads, stores,
   TLB refills, exits and kills of any number of processes under the swap pool mutex, and
   `PagingProof` proves that the whole is flat memory. `PagingFacts` draws the consequences
   and says exactly when a process may be killed or an ASID run again; `PagingProgress` proves
   that pager calls finish and the mutex is granted in turn; `StaleTlb` has runs in which an ASID
   is run again too early. `Handoff` and `Supports` are the
   protocol by which the shell runs children and gets its support structures back.

The pieces meet in the abstract semaphore `Counting.Sema`: `Semaphores.ViewStep` proves that
every kernel step acts on each semaphore as that semaphore's own P, V, broadcast or death does,
and `Paging` and `Handoff` use the same P, V and death.

Assumptions on the environment are preconditions of steps (`Runs.Enabled`, `Paging.Enabled`):

- P and V are not used on device semaphores. `PasserenExactly` and `VerhogenExactly` give the
  exact condition.
- A TERMPROCESS target is live and no proper ancestor of the caller: `TerminateExactly` and,
  from boot, `RunningDead`.
- A time slice ends only while a process runs (handlePLT uses currentProcess unchecked; the
  scheduler masks its timer before WAIT). Other interrupts come while one runs or the kernel
  waits.
- The holder of the swap pool mutex is not killed: `KillExactly`.
- A terminated ASID is not started again: `RestartExactly` and, from the initial state,
  `ReadsAnothersPage`.
- Flash operations succeed.

Device interrupts may come at any time, whether or not a process waits for the device, so that
the one answering the request of a killed process is covered. `LostBy` keeps the processes
that this makes the kernel lose: an interrupt nobody waits for leaves its semaphore positive
(`DeviceExactly`), and a DOIO whose P goes through gives up the processor all the same
(`IoExactly`). `AnsweredLosesNobody` needs every interrupt to find a waiter; no other result
does.

Points where the code decides what one might expect otherwise:

- `killProcess` gives back softBlockCount only for pseudo-clock waiters
  (phase2/functions.c:77-78), so the count also includes device waiters that were killed, and
  DOIOs whose P went through; `VerdictExactly` states it with these and with its wrap at 2^32.
  `SilentDeadlock` is a run from boot that ends in WAIT with every live process waiting for a user
  semaphore and nobody for a device or the clock.
- An interrupt without a waiter, which a comment calls impossible (phase2/interrupts.c:81),
  comes about when a process waiting for a device is killed; `LostCaller` is such a run from
  boot, at the end of which DOIO loses its caller.
- YIELD appends at the tail of a non-empty ready queue whatever the priorities;
  `YieldExactly` says when that breaks the priority order, and `YieldInverts` is a run from boot
  in which it does.
- PRESENTFLAG is set by a failed probe, so the pager's TLBWI is the case of a page that is in
  the TLB (phase3/vmSupport.c:137-147).

## Model

| member | source | states |
|---|---|---|
| Listx.Arena.ListAdd | headers/listx.h:104-121 | the entry is spliced in after the given cell of one list; all other lists and the order of the rest are unchanged; every list stays a proper ring |
| Listx.Arena.ListAddTail | headers/listx.h:131-133 | the entry becomes the last of the list |
| Listx.Arena.ListDel | headers/listx.h:143-159 | the entry leaves its list, the others close up, and it is linked to itself and in no list |
| Listx.Arena.ListEmpty | headers/listx.h:180-182 | true exactly for the empty list |
| Listx.RingInsert | headers/listx.h:104-109 | the four pointer writes of an insertion turn a ring of s into a ring of s with the entry spliced in |
| Listx.RingRemove | headers/listx.h:143-159 | the pointer writes of a deletion turn a ring of s into a ring of s without the entry |
| Pcbs.PcbTable.constructor | phase1/pcb.c:7-20 | every PCB is in the free list, last table entry first, all else empty |
| Pcbs.PcbTable.FreePcb | phase1/pcb.c:22-26 | the PCB becomes the head of the free list |
| Pcbs.PcbTable.AllocPcb | phase1/pcb.c:28-69 | NULL exactly when nothing is free; else the head of the free list, reset, in no list, childless, with a pid never used before |
| Pcbs.PcbTable.InsertProcQ | phase1/pcb.c:86-105 | the PCB goes before the first of strictly lower priority and nothing else moves |
| KernelState.Slot | phase1/pcb.c:86-105 | the insertion point: everything before it has at least the priority, what stands at it strictly less |
| KernelState.SlotUnique | phase1/pcb.c:86-105 | those two facts determine the insertion point |
| Pcbs.PcbTable.HeadProcQ | phase1/pcb.c:107-114 | the first PCB, or NULL for an empty queue |
| Pcbs.PcbTable.RemoveProcQ | phase1/pcb.c:116-126 | takes the first PCB off the queue, or returns NULL and changes nothing |
| Pcbs.PcbTable.OutProcQ | phase1/pcb.c:128-146 | takes out the PCB given wherever it stands in this queue and returns it; NULL and no change if it is not there |
| Pcbs.PcbTable.EmptyChild | phase1/pcb.c:148-160 | true exactly for NULL and for a PCB without children |
| Pcbs.PcbTable.InsertChild | phase1/pcb.c:162-173 | the child comes first in its parent's list and names it as parent; NULL arguments change nothing |
| Pcbs.PcbTable.RemoveChild | phase1/pcb.c:175-190 | takes off the first child and clears its parent; NULL if there is none |
| Pcbs.PcbTable.OutChild | phase1/pcb.c:192-205 | takes the PCB out of its parent's list wherever it stands there; NULL without a parent |
| Asls.Asl.constructor | phase1/asl.c:8-24 | no semaphore active, every descriptor free |
| Asls.Asl.InsertBlocked | phase1/asl.c:26-64 | fails exactly if the semaphore is not active and MAXPROC others are, changing nothing; else the PCB joins the tail of the queue with that key and records the key |
| Asls.Asl.RemoveBlocked | phase1/asl.c:66-105 | takes the longest waiting PCB and clears its key; an emptied queue's descriptor goes back to the free list; NULL and no change if the key is not active |
| Asls.Asl.OutBlocked | phase1/asl.c:107-142 | takes the PCB out of the one queue it waits in, with the same care for the descriptor; NULL and no change if it waits nowhere |
| Asls.Asl.HeadBlocked | phase1/asl.c:144-164 | the longest waiting PCB of that key, or NULL |
| Asls.Asl.NotQueued | phase1/asl.c:107-142 | a PCB with no recorded key, not free and not ready, is linked in no list at all |
| Stability.DescriptorLeft | phase1/asl.c:48-51 | insertBlocked never fails in the kernel: while one PCB waits nowhere fewer than MAXPROC semaphores are active, so ignoring its result is sound |
| Forest.PostOrderExact | phase2/functions.c:63-71 | the order in which killProcess visits PCBs lists exactly the descendants of its argument, each once, the argument last |
| Forest.PostOrderChildrenFirst | phase2/functions.c:66-94 | no PCB is freed before one of its descendants |
| Forest.SiblingsApart | phase1/pcb.c:162-190 | subtrees of different children are disjoint |
| Killing.KillRound | phase2/functions.c:66-68 | one turn of killProcess's loop: removing the first child and killing it in the state reached is removing the next child's subtree of the original forest |
| Killing.WithoutWellFormed | phase2/functions.c:63-96 | removing any descendant-closed set of live PCBs keeps all queues, keys and the forest well formed |
| Killing.KillsSubtree | phase2/functions.c:63-96 | killProcess removes exactly the subtree: ready queue and semaphore queues lose its members and keep the order of the rest, emptied queues are not active, the free list gains them in front with the root first and parents before children, processCount falls by the subtree's size |
| Killing.KillSpares | phase2/functions.c:66-71 | every PCB outside the subtree keeps all its fields and its children, but for the root of the subtree as a child |
| Nuclei.Nucleus.KillProcess | phase2/functions.c:63-96 | the recursive code over lists, tree, descriptors and counters terminates and makes the kill step of KillsSubtree and KillSpares; NULL changes nothing |
| Devices.SameSemaphore | phase2/functions.c:28-46 | a sub-device's command register and the address used by its interrupt have the same index, below the pseudo-clock's |
| Devices.SemaphoreOwner | phase2/functions.c:28-46 | findDeviceIndex is injective on the 48 sub-devices: the index determines the sub-device |
| Devices.SemaphoresOwned | phase2/functions.c:16-46 | and onto the indices below the pseudo-clock's |
| Devices.CommandAddresses | phase2/functions.c:28-46 | the index of each command register in plain numbers: 8 for each of lines 3 to 6, then two for each terminal, receiver first |
| Devices.Accepted | phase2/functions.c:28-46 | exactly which addresses are accepted, and that eight of them past the last device get the pseudo-clock's index |
| Devices.LowestPending | phase2/interrupts.c:168-195 | the lowest pending device of the line is served, and none only if none is pending |
| Nuclei.Nucleus.constructor | phase2/initial.c:15-61 | the state after boot: one process running, the rest free, device semaphores 0 |
| Nuclei.Nucleus.Scheduler | phase2/scheduler.c:6-33 | dispatches the head of the ready queue, else halts, waits or panics by the two counters |
| Nuclei.Nucleus.CreateProcess | phase2/exceptions.c:54-74 | CREATEPROCESS as one step on the kernel state, and the pid or -1 in reg_a0 |
| Nuclei.Nucleus.TermProcess | phase2/exceptions.c:75-104 | TERMPROCESS as one step, for the caller, another process or an unknown pid |
| Nuclei.Nucleus.Passeren | phase2/exceptions.c:105-124 | PASSEREN as one step |
| Nuclei.Nucleus.Verhogen | phase2/exceptions.c:125-140 | VERHOGEN as one step: hand-off to the first waiter, or an increment |
| Nuclei.Nucleus.DoIO | phase2/exceptions.c:141-159 | DOIO as one step on the semaphore findDeviceIndex gives for the command register |
| Nuclei.Nucleus.ClockWait | phase2/exceptions.c:168-182 | CLOCKWAIT as one step |
| Nuclei.Nucleus.Yield | phase2/exceptions.c:211-227 | YIELD as one step |
| Nuclei.Nucleus.PassUpOrDie | phase2/exceptions.c:237-255 | a trap kills the caller's subtree exactly if it has no support structure |
| Nuclei.Nucleus.HandleDevice | phase2/interrupts.c:19-93 | for the lowest pending device d, one step on semaphore (line - 3) * 8 + d with its status, on lines 3 to 6; on line 7 on 33 + 2 * d with transm_status alone if that reports a character sent, whatever the receiver holds, and else on 32 + 2 * d with recv_status; with no device pending the kernel panics |
| Nuclei.Nucleus.HandlePLT | phase2/interrupts.c:95-106 | the end of a time slice as one step |
| Nuclei.Nucleus.HandleIntervalClock | phase2/interrupts.c:108-126 | the draining loop terminates and is one step on the kernel state |
| Machine.Handle | phase2/exceptions.c:37-255 | for every enabled event the concrete handler makes exactly that event's step of the state machine |
| Machine.Perform | phase2/exceptions.c:8-35 | the concrete nucleus, after the handlers of any legal sequence of events, is in the state the run of these events ends in |
| Machine.BootAndPerform | phase2/initial.c:15-61 | the same from main() on |
| Runs.StepInv | phase2/exceptions.c:52-255 | every system call, trap, interrupt and time slice keeps the whole kernel invariant, and loses the caller of a DOIO whose P goes through and nobody else |
| Runs.BootInv | phase2/initial.c:15-61 | boot establishes it |
| Runs.BootExactly | phase2/initial.c:15-61 | field by field: the last PCB of the table runs with pid 1, the others are free in descending order, nobody waits, the counters are 1 and 0, deviceSemaphore is 0 and the rest of memory as it was |
| Runs.Partition | phase2/initial.c:15-61 | after every run from boot each PCB is in at most one of free list, ready queue, one semaphore queue and currentProcess, and in none exactly if a DOIO has lost it and nobody killed it since; keys and queues agree; parents and child lists mirror each other without cycles and free PCBs have neither; processCount plus free PCBs is MAXPROC |
| Lives.StepPcb | phase2/exceptions.c:52-255 | for every event and every live process: it is freed exactly if the event kills it; else parent, priority, pid and support structure stay, and its saved reg_a0 changes only if it is the caller of a call that saves its state, or the one a device wakes |
| Lives.DeathExactly | phase2/exceptions.c:75-104 | a live process dies in an event exactly if it is the TERMPROCESS target, or a caller that traps without a support structure, or descends from one of these |
| Lives.NothingHappens | phase2/exceptions.c:237-255 | a trap that is passed up, and TERMPROCESS of an unknown pid, leave the kernel state as it is |
| Lives.LifeKeeps | phase2/exceptions.c:52-255 | while a process lives, in any run, its parent, priority, pid and support structure stay |
| Lives.CreatedForLife | phase2/exceptions.c:54-74 | from CREATEPROCESS on a process has the priority and support structure it was given, the caller as parent and a pid that none had before, as long as it lives |
| Undo.Created | phase2/exceptions.c:54-74 | CREATEPROCESS field by field: the head of the free list becomes the caller's first child, ready before the first of lower priority, with the next pid; nothing else changes but the two counters |
| Undo.CreateUndone | phase2/exceptions.c:54-104 | CREATEPROCESS and then TERMPROCESS of the new process restore every list in its order, every counter and every other PCB |
| Undo.PasserenUndone | phase2/exceptions.c:118-137 | V after a P that went through restores the kernel state exactly, if nobody waits |
| Environment.TerminateExactly | phase2/exceptions.c:92-102 | TERMPROCESS keeps the invariant if and only if its target is the caller or no ancestor of it; otherwise the caller runs on in a freed PCB |
| Environment.IoExactly | phase2/exceptions.c:147-157 | DOIO loses its caller if and only if the device semaphore is positive |
| Environment.DeviceExactly | phase2/interrupts.c:74-85 | a device interrupt leaves its semaphore 0, so that the next DOIO blocks, if and only if somebody waits for it |
| Environment.AnsweredLosesNobody | phase2/interrupts.c:74-85 | if every device interrupt of a run from boot finds a waiter, nobody is lost and each PCB is in exactly one place |
| Scenarios.LostCaller | phase2/exceptions.c:147-157 | from boot: a child waits for a device, its parent kills it, the device answers, and the parent's next DOIO on that device leaves the parent in no list |
| Scenarios.RunningDead | phase2/exceptions.c:92-102 | from boot: after CREATEPROCESS and YIELD the child may kill its parent, and runs on in a freed PCB |
| Scenarios.SilentDeadlock | phase2/functions.c:77-78 | from boot: a child waits for a device, its parent kills it and waits for a user semaphore; every live process waits for a user semaphore, and the scheduler chooses WAIT, not PANIC |
| Scenarios.YieldInverts | phase2/exceptions.c:219-225 | from boot: a process of priority 0 and its child of higher priority yield to each other, and the lower priority runs while the higher one is ready |
| Environment.PasserenExactly | phase2/exceptions.c:105-124 | P keeps softBlockCount in step with the device waiters if and only if its address is no device semaphore or a positive one |
| Environment.VerhogenExactly | phase2/exceptions.c:125-140 | V keeps the device semaphores and softBlockCount in step if and only if its address is no device semaphore, or that of a sub-device nobody waits for |
| Semaphores.ViewStep | phase2/exceptions.c:105-182 | each kernel step acts on each semaphore as a counting semaphore with a FIFO queue, and not on any other |
| Semaphores.Conservation | phase2/exceptions.c:105-140 | over every run, for every semaphore but the pseudo-clock's: value = initial value + Vs - completed Ps; every P is completed, waiting or died waiting; the value is never negative, and 0 while somebody waits |
| Semaphores.FromBoot | phase2/exceptions.c:105-140 | the same from boot for a user semaphore of any initial value n >= 0 |
| Semaphores.FifoBound | phase1/asl.c:66-105 | as long as a process with i others before it waits, no more than i Vs have come, whatever is killed or blocked meanwhile |
| Waking.WokenInTime | phase1/asl.c:66-105 | a waiting process with i others before it that is not killed is woken by the (i+1)-th V at the latest, and is then ready or running |
| Semaphores.FifoOrder | phase1/asl.c:26-105 | nobody is woken before an earlier waiter that still waits |
| Semaphores.OnlyOwnDevice | phase2/interrupts.c:19-80 | a process blocked by DOIO stays blocked until an interrupt of its own sub-device or its death |
| Semaphores.Completion | phase2/interrupts.c:72-85 | that interrupt wakes the longest waiting process with the device's status in its reg_a0 and changes no other PCB; with nobody waiting it only counts up |
| Waking.IoResult | phase2/interrupts.c:72-85 | whatever happens before it is dispatched, the woken process runs next with that status in reg_a0, unless it is killed |
| Waking.SavedResumes | phase2/exceptions.c:105-182 | the caller of P, DOIO, CLOCKWAIT or YIELD, or the one whose time slice ends, next runs with the reg_a0 saved then, whatever it waits for meanwhile, unless it is killed or a device gives it a status |
| Waking.SliceResumes | phase2/interrupts.c:95-106 | a process whose time slice ends goes to the ready queue and next runs with the reg_a0 it was interrupted with, unless it is killed |
| Verdict.VerdictExactly | phase2/scheduler.c:7-23 | softBlockCount is the number of device and clock waiters plus the device waiters ever killed plus the DOIOs that did not block, modulo 2^32; HALT exactly when every PCB is free; with live processes and none ready, WAIT exactly if that is not 0, else PANIC |
| Verdict.PanicIsDeadlock | phase2/scheduler.c:22-23 | after PANIC, as long as the count has not wrapped, no process waits for a device or the clock, none is lost, and every live process waits for a user semaphore |
| Verdict.WaitExactly | phase2/scheduler.c:13-23 | if no device waiter was killed and every DOIO blocked, WAIT is chosen exactly when some process waits for a device or the clock |
| ReadyOrder.StepMoves | phase1/pcb.c:86-126 | each step puts its arrivals into the ready queue by priority insertion after removing the killed, and dispatches exactly the head if it schedules |
| ReadyOrder.ClockTickExact | phase2/interrupts.c:108-126 | the pseudo-clock queue is emptied into the ready queue by priority insertion in FIFO order, softBlockCount falls by its length, other queues are untouched, and the clock semaphore is 0 |
| ReadyOrder.BoundedWait | phase2/scheduler.c:28 | as long as a ready process with i others before it stays ready, there have been no more than i dispatches, plus one for each arrival above f, for any priority f that it and those ahead of it have at least |
| ReadyOrder.DispatchedInTime | phase2/scheduler.c:28 | any ready process with i others before it that is not killed is dispatched by the (i+1)-th dispatch, or later by one for each arrival, until then, above the least priority among it and those ahead of it |
| ReadyOrder.NoOvertaking | phase1/pcb.c:86-126 | while it is ready, a process behind it or arriving later, and never above that f, is never dispatched |
| ReadyOrder.ArrivedFloor | phase1/pcb.c:86-105 | for a process that becomes ready other than by YIELD that least priority is its own, so that only arrivals of strictly higher priority count |
| ReadyOrder.PriorityDispatch | phase1/pcb.c:86-126 | in every run without YIELD the ready queue stays sorted and each dispatch picks a process of highest priority |
| ReadyOrder.PriorityFromBoot | phase2/scheduler.c:28 | the same from boot |
| ReadyOrder.YieldExactly | phase2/exceptions.c:219-225 | YIELD keeps the queue sorted exactly if at most one process was ready or the caller's priority is no higher than the last one's, and dispatches a highest priority process exactly if none was ready or it is no higher than the first one's |
| VmState.EntryHiRoundTrip | phase3/vmSupport.c:21-35 | the pte_entryHI that initSupportStructure writes has page number 0x80000 + i, or 0xBFFFF for the stack, over 64 * asid, and page index and ASID are recovered from it |
| Pagers.Pager.constructor | phase3/vmSupport.c:11-20 | every swap frame is unoccupied |
| Pagers.Pager.PageReplacement | phase3/vmSupport.c:161-172 | the least free frame, frameIndex unchanged; with none free frameIndex grows by one and its remainder by POOLSIZE is the frame; nothing else changes |
| VmState.RoundRobin | phase3/vmSupport.c:161-172 | POOLSIZE consecutive replacements on a full pool take every frame exactly once |
| Pagers.Pager.ClearValid | phase3/vmSupport.c:52-70 | the page in the frame has no valid entry any more, in the page table or the TLB; its frame bits, all other pages' entries and the TLB's uniqueness are kept |
| Pagers.Pager.InstallPage | phase3/vmSupport.c:122-147 | the frame and no other changes hands; the new page's entry is valid and names it, in the page table and in exactly one TLB entry; all other pages' entries are kept but for the TLB slot replaced |
| Pagers.Pager.RefillTlb | phase2/exceptions.c:257-275 | after a miss the page has exactly one TLB entry, the page table's; all other slots are kept |
| Pagers.Pager.PageFault | phase3/vmSupport.c:108-154 | a whole pager call, undisturbed: the page is valid, no live page's contents have changed, swap pool and page tables stay inverse to each other, the TLB stays free of duplicates and maps the page as the page table does |
| VmState.ServedKeeps | phase3/vmSupport.c:110-147 | taking a frame from any owner and giving it to a page moves no live page's contents, the evicted page's to its flash block |
| Pagers.Pager.FreeSwapFrames | phase3/vmSupport.c:175-184 | exactly the frames of that ASID become free; page tables and TLB are untouched |
| VmState.FreeFrames | phase3/vmSupport.c:175-184 | frame by frame, what freeSwapFrames leaves |
| PagingProof.StepKeeps | phase3/vmSupport.c:50-158 | every piece of the pager, every access, refill, lock, unlock, exit and kill keeps the invariant and acts on each live page as on flat memory |
| PagingProof.Refines | phase3/vmSupport.c:50-158 | virtual memory refines flat memory: in every interleaving each load returns what was last stored there, and no store is lost |
| PagingProof.RefinesFromStart | phase3/vmSupport.c:11-20 | the same from an empty swap pool, memory being the flash blocks |
| PagingProof.ReadsLastStored | phase3/vmSupport.c:50-158 | the word a load finds in the frame its TLB entry names is the value of the last store of its process to that place in the run, or the initial one if there was none |
| PagingFacts.MutualExclusion | phase3/vmSupport.c:108-154 | value of swapPoolSemaphore plus number of holders is 1 in every reachable state, so at most one pager transaction is under way |
| PagingProgress.HolderCanMove | phase3/vmSupport.c:108-154 | whenever the mutex is taken its holder's next step can happen |
| PagingProgress.TransactionBounded | phase3/vmSupport.c:108-154 | the holder keeps the mutex until it releases it, and has at most six steps until then, whatever others do |
| PagingProgress.FramePicked | phase3/vmSupport.c:161-172 | in every state the pager's choice is the least free frame, or with none free the next one round robin, and changes nothing but frameIndex |
| PagingProgress.FaultServed | phase3/vmSupport.c:93-158 | after a page fault the process does not run before its pager call releases the mutex, and then the page it faulted on is mapped, whatever others do meanwhile |
| PagingProgress.GrantedInTime | phase3/vmSupport.c:108-154 | a process with i others before it in the mutex's queue that is not killed is granted it by the (i+1)-th release at the latest |
| PagingFacts.PoolInverse | phase3/vmSupport.c:110-147 | whenever the mutex is free, occupied frames and valid entries of live processes are mutually inverse |
| PagingFacts.TlbCoherence | phase3/vmSupport.c:56-70 | a page has at most one TLB entry, and a live page's agrees with the page table: both invalid, or both valid with the same frame |
| PagingFacts.TlbEqual | phase3/vmSupport.c:56-70 | in every run from the initial state the TLB entry of a live page equals its page table entry, frame bits of invalid entries included |
| PagingProof.FaultedInvalid | phase3/vmSupport.c:93-112 | a TLB-invalid fault is taken only on a page whose entry is not valid |
| PagingFacts.KillExactly | phase3/vmSupport.c:108-154 | a process may be killed if and only if it does not hold the mutex; otherwise in every state of every run from there nobody holds it and it is not free |
| PagingFacts.RestartExactly | phase3/vmSupport.c:175-184 | an ASID may be run again, with any contents of its flash blocks and every load of every run right, if and only if no valid TLB entry of it is left, which freeSwapFrames does not see to |
| StaleTlb.ReadsAnothersPage | phase3/vmSupport.c:175-184 | for any two ASIDs a and b, any swap frames and any TLB of two entries at least, a run from the initial state after which a, started again, first loads the word b has in its page, whatever is in a's own flash blocks; so with the shell's ASID 1 as b and any child's as a |
| Supports.SupportPool.constructor | phase3/initProc.c:72-83 | all UPROCMAX support structures are free |
| Supports.SupportPool.Allocate | phase3/initProc.c:21-33 | the first free structure, NULL exactly if there is none |
| Supports.SupportPool.Deallocate | phase3/initProc.c:15-17 | the structure becomes the first free one |
| Handoff.StepKeeps | phase3/sysSupport.c:5-27 | every step of Execute and Terminate keeps the hand-off invariant |
| Handoff.NeverRunsOut | phase3/sysSupport.c:100-133 | free plus used structures are UPROCMAX, at most two are used, and allocateSupport never returns NULL to ExecuteSys |
| Handoff.ResumesAfterChild | phase3/sysSupport.c:120-132 | the shell resumes from a successful Execute only after its child has released frames and structure; while it is blocked that child's signal is still to come |
| Handoff.EveryMove | phase3/sysSupport.c:5-27 | in every state of every run: what each phase of shell, children and root ends with and where it leads; in particular the shell leaves PASSEREN exactly with its child's signal and for user code, or passes it at once when the child has signalled, and a CREATEPROCESS that fails gives the structure back and leads to user code |
| Handoff.ShellResumes | phase3/sysSupport.c:120-132 | a shell waiting for its child is back in user code once the child has made its remaining steps, three at most, in any interleaving; while it waits the child can always make the next |
| Handoff.RootResumesLast | phase3/initProc.c:96-102 | test() passes masterSemaphore only when every structure is free again |

## Left out

- Nuclei.Nucleus.TermProcess: is given its target instead of looking it up by pid, because of findBlockedPcb.
- findBlockedPcb and findProcess: both loops of findBlockedPcb share one iterator, so what it finds is not claimed.
- GETTIME, p_time, updateTime and startTime: CPU time accounting.
- GETSUPPORTPTR and GETPROCESSID: they only read a field into reg_a0.
- Saved states: only reg_a0 is modelled; copyState, status, mie, pc_epc and the state CREATEPROCESS copies are reduced to it.
- BIOS services, exception code and interrupt line decoding, and the check that kernel calls come from kernel mode: steps are given as already decoded.
- Nuclei.Nucleus.HandleDevice: asks, for a terminal, that one of its two status registers reports completion (otherwise the code dereferences NULL).
- The device's own registers after ACK, and the value DOIO writes to the command register.
- Nuclei.Nucleus.DoIO: asks for an address that findDeviceIndex accepts; for others the code indexes deviceSemaphore with -1.
- NULL semaphore addresses: a user semaphore is a non-NULL word outside deviceSemaphore that programs change by P and V only.
- Flash error paths, the TLB-modification check and programTrapHandler in the pager.
- Writes of a flash block being torn: a flash read or write is one step.
- sw_pte is identified with the (asid, page) pair of sw_asid and sw_pageNo; DIRTY and other bits of entries are left out.
- Overflow of next_pid, frameIndex, priorities and user semaphore values: unbounded integers; processCount and softBlockCount do wrap.
- PCBs, descriptors and support structures are slots of arrays, so container_of is the identity on indices; the Arena stands for one kind of link.
- The terminal read and write system calls, flashSemaphore, klog.c, the test programs.
- Reuse of a support structure's stacks by a child while its previous owner still runs the end of TerminateSys.
- Handoff: swap frames are freed in one step there, their mutex being the subject of Paging.

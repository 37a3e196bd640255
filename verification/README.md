# Kaya OS: the nucleus and the pager, verified

This project models two parts of the Kaya operating system in Dafny and proves what
they are for.

**The nucleus** (phases 1 and 2). Process control blocks are threaded through one set of
links into a free stack, a ready queue and one queue for every semaphore in use; their
families are doubly linked sibling lists. The Active Semaphore List is a sorted list of
descriptors between two sentinels. Over these run the system calls, the recursive kill,
the interrupt handlers and the scheduler.

- `PcbTable.dfy` and `Asl.dfy` are the linked structures, in place, over index arrays (a
  block is an index, NULL is -1). Each method is proved against the sequence or map that
  the structure stands for. `Lists`, `Links`, `AslLists` and `Families` hold the facts
  about links that they need.
- `Kernel.dfy` says what each kernel step does to the state as a value. `Nucleus.dfy` is
  the kernel over the linked structures; every method ends in the state that the value
  says. A step ends in a verdict (resume, dispatch, halt, panic, wait), since `scheduler()`
  never returns to its caller. `Handlers.dfy` has the two entry points and ties them to
  the machine of `KernelRuns`.
- `KernelInv`, `KillSpec`, `KernelSteps` and `KernelRuns` prove one invariant for every
  step, hence for every run from `main`. What follows is in the other `Kernel` files:
  `KernelTheorems` has exact verdicts, exact kills and no orphans; `KernelTree` whose child
  a process is; `KernelSemaphores`, `KernelLedger` and `KernelWaiting` what the value of a
  semaphore adds up to, who is woken when and by which interrupt; `KernelMutex` mutual
  exclusion; `KernelFairness` bounded waiting; `KernelTime` CPU bills; `KernelLimits` where
  the code departs from its comments.

**The pager** (phase 3). User processes page their private memory through a pool of
frames with round-robin replacement, a translation cache that is cleared on every change,
and a disk that has to seek before it transfers.

- `Pager.dfy` is the interleaving of the processes: one step runs from a SYSCALL to the
  next, and any process may take the next step. It is written field by field: how each
  part of the state changes at each step.
- `Support.dfy` is the same in the form of `vmIOsupport.c` and `initProc.c`: a class whose
  methods update tables, frames and disk, each ending in the state that `Pager.dfy` says,
  and the handler, the boot loop and `meIRL` as whole loops.
- `PagerInv` proves the invariant for every interleaving. `PagerMemory` proves that paging
  is invisible, `PagerFault` that a page fault brings in the page that was missing,
  `PagerTables` that pool and page tables are inverses, `PagerDeath` that whoever quits dies
  and leaves no frame behind, `PagerLocks` that the mutexes never deadlock, `PagerRotation`
  how long a page stays, `PagerBoot` that a process first sees its tape. `PagerWitness` and
  `KernelWitness` are runs on which the code, or its repair, falls short.

The numbers of blocks, frames and user processes are parameters. To verify everything:
`dafny verify dfyconfig.toml`.

## Reading the model

Where the code and its comments differ the model follows the code, and a lemma says
exactly when the comment holds:

- `headBlocked` never compares the address it finds with the one it was asked for, so the
  drain loop of the interval interrupt does not end while a process waits at a higher
  address (`KernelLimits.HeadExact`, `Nuclei.Nucleus.Drain`). A run of the model ends there
  (`KernelWitness.DrainNeverEnds`).
- The device test of the kill takes in the address just behind `sem`. A victim that waits
  there costs `softBlockCount`, in which it never was, and its semaphore is not credited
  (`KernelTheorems.KillExact`). Both counts are right exactly if there is no such victim
  (`KernelTheorems.KillRight`), and otherwise the kill breaks the invariant
  (`KernelSteps.PurgedUnsafe`); `KernelWitness.KillBehind` is a run to such a kill and to
  the panic that follows while a process only waits for the clock.
- `checkingDevice << 1` has no effect, so only device 0 of a line is ever recognised
  (`KernelLimits.DeviceExact`), and the interrupt of a receiving terminal other than the
  first is charged to the clock (`KernelLimits.IndexExact`). The invariant survives that
  exactly while the clock is negative (`KernelLimits.ClockChargeExact`). An interrupt never
  goes to whoever waits for another device than device 0 of a line
  (`KernelWaiting.InterruptIsFor`), who then waits until it is killed
  (`KernelWaiting.NeverAnswered`, `KernelWitness.NobodyAnswers`).
- SYS3 and SYS4 take any address. On a semaphore of `sem` they leave `softBlockCount`
  alone, so SYS3 is safe there only if nobody waits (and the clock is negative, if it is
  the clock), SYS4 only if it does not block (`KernelWitness.UnsafeSignal`,
  `KernelWitness.UnsafeWait`). SYS8 takes any line and device; outside `sem` it is safe
  only if it does not block. A run of the model consists of safe entries;
  `KernelRuns.StepExact` says that the invariant holds after those and after no others.
- SYS7 calls `scheduler()` even if its caller does not block, and then loses the caller
  (`KernelLimits.CallerExact`). In runs of safe entries this never happens
  (`KernelTheorems.ClockKeepsCaller`); one interrupt charged to a clock at zero is enough
  for it, even right after `main` (`KernelLimits.FirstProcessLost`).
- `allocPcb` leaves `pcb_parent` and `pcb_time` alone. A kill clears the parents of its
  victims. The old bill is handed on (`KernelTime.BillInherited`,
  `KernelWitness.BillHandedOn`).
- The code's NULL is 0xFFFFFFFF (h/const.h:56) while static storage is zero, so a block
  that has never been used has parent 0, which is not NULL. The first process is such a
  block: when it is killed, `outChild` takes it for a child, reads what address 0 holds as
  a parent's first child, and leaves by its last return. The model starts blocks without a
  parent, as `allocPcb` is meant to leave them, and does not show that read.
- `outBlocked` uses the result of `outProcQ` unchecked. A process that carries an active
  address is in its queue, which is what its caller knows.
- `| nVALID` clears nothing, so a dead process keeps its valid entries
  (`PagerTables.ValidBitsStay`, `PagerWitness.DeadEntryStays`); `& nVALID` clears the whole
  word. Nobody uses the tables of a dead process again.
- `meIRL` releases no device, so one that is held at death stays locked
  (`PagerLocks.DiesWithDevice`, `PagerWitness.DeadHolder`). As coded only the dead process
  would ever have wanted it.
- `diskIO` rejects every command because its check reads `||` for `&&`. The flag
  `repaired` of the model chooses between the code and its intent; each result holds for
  both or says what it needs. With the check repaired more faults come to light: a process that dies
  in `diskIO` leaves others waiting for ever (`PagerWitness.StuckBehindDead`), and `diskIO`
  copies through the page that a booting process reads its tape through and takes the
  numbers of tapes for disks, so that it can spoil a boot (`PagerBoot.BootExact` says when,
  `PagerWitness.FirstPageLost` and `PagerWitness.FirstBlockSkipped` show it).

What the model takes for granted:

- Blocks of the static table start with no parent and no bill.
- A semaphore's address is above 0 and below `MAXINT`. Semaphores other than those of `sem`
  lie outside it and start at no negative value; only P, V and kills change them. SYS3,
  SYS4 and SYS8 are called for one of these words.
- Clock readings are parameters that do not decrease.
- There are at most eight user processes, one for each device of a line, and every tape
  has at least one block. Disk and tape operations succeed.
- A mutex of the support level is its holder. That a semaphore of the nucleus which starts
  at 1 and is used P before V admits one process at a time is `KernelMutex.OneInside`.
  Which of several waiting processes gets a mutex next is left open.

## Model

| member | source | states |
|---|---|---|
| PcbTables.PcbTable.InitPcbs | phase1/pcb.c:38-52 | after it the free stack holds every block exactly once |
| PcbTables.PcbTable.FreePcb | phase1/pcb.c:58-62 | a block goes on top of the stack; no other link changes |
| PcbTables.PcbTable.AllocPcb | phase1/pcb.c:67-104 | the top of the stack comes off with every link cleared except parent; an empty stack gives NULL and changes nothing |
| PcbTables.PcbTable.InsertProcQ | phase1/pcb.c:109-129 | the circular queue held by its tail stands for q before and q + [p] after; only links of q and p change, in both directions of the ring |
| PcbTables.PcbTable.HeadProcQ | phase1/pcb.c:143-155 | the front of the sequence, NULL if it is empty |
| PcbTables.PcbTable.OutProcQ | phase1/pcb.c:162-213 | p wherever it is leaves and the rest keep their order; if p is not there one lap finds that out and nothing changes |
| PcbTables.PcbTable.RemoveProcQ | phase1/pcb.c:134-138 | the front leaves, the rest stay in order |
| PcbTables.PcbTable.InsertChild | phase1/pcb.c:229-249 | the sibling list stands for ks before and [p] + ks after, whatever stale sibling pointers p had; only the family of prnt changes |
| PcbTables.PcbTable.OutChild | phase1/pcb.c:262-318 | exactly the child c leaves, in all positions: the case split is exhaustive and its last return is never reached for a child in its parent's list |
| PcbTables.PcbTable.RemoveChild | phase1/pcb.c:254-257 | the first child leaves and its parent is cleared; NULL if there is none |
| Links.ProcQCut | phase1/pcb.c:171-212 | bypassing one element of a ring of both directions gives the ring of the remaining sequence, with the tail moved when it was the tail |
| Links.ProcQFrame | phase1/pcb.c:109-213 | a queue none of whose elements had a link changed still stands for the same sequence |
| Links.FamilyCut | phase1/pcb.c:278-313 | each of the four unlinkings of outChild gives the family without the child |
| Families.FamiliesInsert | phase1/pcb.c:229-249 | insertChild keeps all other families of the forest |
| Families.FamiliesRemove | phase1/pcb.c:262-318 | outChild keeps all other families of the forest |
| Asls.Asl.constructor | phase1/asl.c:245-275 | initASL: two sentinels active, all other descriptors free, no address active |
| Asls.Asl.AllocSemd | phase1/asl.c:23-43 | the top of the free descriptors comes off cleared; NULL if there is none |
| Asls.Asl.FreeSemd | phase1/asl.c:48-53 | a descriptor goes on top of the free ones |
| Asls.Asl.SearchASL | phase1/asl.c:62-83 | the search stops before the upper sentinel, at the last node below the key: its successor is the first not below it |
| Asls.Asl.InsertBlocked | phase1/asl.c:94-134 | the list refines a finite map from addresses to non-empty queues: p is appended to the queue of semAdd, made if need be; it fails exactly when a descriptor is needed and none is free, and then no list, link or address changes; links outside the queue keep their values |
| Asls.Asl.RemoveBlocked | phase1/asl.c:146-182 | the front of the queue of semAdd leaves with its address cleared; an emptied queue leaves the map and its descriptor goes back to the stack |
| Asls.Asl.OutBlocked | phase1/asl.c:190-224 | p leaves the queue of the address it carries, wherever it is in it; nothing happens if that address is not active |
| Asls.Asl.HeadBlocked | phase1/asl.c:231-238 | as coded: the front of the queue of the least active address from semAdd on, NULL exactly when there is none |
| AslLists.SearchFinds | phase1/asl.c:98-106 | the node after the last one below an address carries it exactly when the address is active |
| AslLists.NodesCount | phase1/asl.c:109-116 | there are two more nodes than active addresses |
| KernelInvs.QueuesCount | phase1/asl.c:109-116 | by counting disjoint non-empty queues that leave out the running process: fewer addresses are active than there are blocks |
| Nuclei.Nucleus.constructor | phase2/initial.c:78-92 | the tables after initPcbs and initASL: all blocks free, nothing active |
| Nuclei.Nucleus.Boot | phase2/initial.c:78-114 | main ends in the one initial state: all of sem zero, one live process, ready, and scheduler's verdict on it |
| Nuclei.Nucleus.ClearSemaphores | phase2/initial.c:83-88 | the loop zeroes exactly the 49 semaphores of sem |
| Nuclei.Nucleus.FirstProcess | phase2/initial.c:94-110 | one block is allocated, counted and made ready; nobody runs |
| Nuclei.Nucleus.Scheduler | phase2/scheduler.c:37-87 | the linked tables end up as the dispatch of the front of the ready queue, after billing; the verdict is that of the counters |
| Nuclei.Nucleus.Bill | phase2/scheduler.c:39-43 | only the running process, if any, is billed |
| Nuclei.Nucleus.SysCreate | phase2/exceptions.c:187-209 | the top free block becomes the newest child of the caller, whose block is its parent, and the last of the ready queue; -1 and no change if there is none |
| Nuclei.Nucleus.ExecuteOrderSixtySix | phase2/exceptions.c:435-475 | the recursive kill over the linked tables ends, and leaves the state without exactly the process and its descendants, their blocks on the free stack in the order of the recursion |
| Nuclei.Nucleus.Withdraw | phase2/exceptions.c:450-470 | a victim leaves its queue; by the test as coded its semaphore is credited, or softBlockCount loses one |
| Nuclei.Nucleus.Bury | phase2/exceptions.c:444-474 | the childless victim leaves its parent, its queue and the count |
| Nuclei.Nucleus.SysSendToNorthKorea | phase2/exceptions.c:218-225 | the running process and its descendants are gone, then scheduler decides |
| Nuclei.Nucleus.SysSignal | phase2/exceptions.c:237-257 | V on any semaphore: its word, and no other, is one more, whatever it was; the front of the queue, if the value stays at most zero, becomes ready |
| Nuclei.Nucleus.SysWait | phase2/exceptions.c:267-284 | P on any semaphore: its word, and no other, is one less; the caller goes on, or joins the end of the queue and scheduler decides |
| Nuclei.Nucleus.BlockCurrent | phase2/exceptions.c:280 | insertBlocked cannot fail for the running process, so its result may be ignored |
| Nuclei.Nucleus.SysGetCPUTime | phase2/exceptions.c:328-346 | the caller is billed up to now and told its bill |
| Nuclei.Nucleus.SysWaitForClock | phase2/exceptions.c:358-377 | P on the clock, whose word is one less, and scheduler whether the caller blocked or not |
| Nuclei.Nucleus.SysGoPowerRangers | phase2/exceptions.c:388-423 | P on the word at (line - 3 + isWrite) * 8 + device, which is one less; a blocked caller is counted |
| Nuclei.Nucleus.Finish | phase2/interrupts.c:192-210 | the interrupted process is ready again, last, its start moved by the handler's time |
| Nuclei.Nucleus.GetDeviceNumber | phase2/interrupts.c:221-251 | as coded: 0 if device 0 is pending, else 8 |
| Nuclei.Nucleus.DeviceDone | phase2/interrupts.c:163-179 | V on a device semaphore: its word is one more; the front of its queue, if any, becomes ready and is no longer counted |
| Nuclei.Nucleus.IoTrap | phase2/interrupts.c:98-182 | a device interrupt as a whole, on the semaphore that the code computes |
| Nuclei.Nucleus.Quantum | phase2/interrupts.c:70-73 | the end of a quantum preempts the running process |
| Nuclei.Nucleus.Drain | phase2/interrupts.c:79-91 | the drain loop empties the clock's queue in order, billing each process; it goes on for ever exactly when an address above the clock's is active |
| Nuclei.Nucleus.IntervalTimer | phase2/interrupts.c:75-96 | the whole interval interrupt, or a hang; if it returns the word of the clock is 0 and no other has changed |
| Handlers.SysCallHandler | phase2/exceptions.c:113-172 | each of SYS1 to SYS8 over the linked tables is the step of the machine that its number and arguments name, and ends in its verdict; the invariant holds after it if and only if the step is safe |
| Handlers.IoTrapHandler | phase2/interrupts.c:50-182 | so is every interrupt by its line, the one charged to the clock too, or its drain loop hangs, exactly when an address above the clock's is active |
| KillSpecs.KillStep | phase2/exceptions.c:438-442 | killing a child's subtree in the middle of a kill is one larger kill |
| KillSpecs.FewerKids | phase2/exceptions.c:438-442 | each round leaves one child fewer |
| KillSpecs.BuriedIsPurged | phase2/exceptions.c:444-474 | burying a childless process is the kill of it alone |
| KillSpecs.KillDone | phase2/exceptions.c:435-475 | what is left when the loop ends is the process itself |
| KernelInvs.DescPurged | phase2/exceptions.c:438-442 | the descendants of a process after part of them died are the others |
| KernelInvs.PurgedTwice | phase2/exceptions.c:435-475 | two kills one after the other are one kill of both, in queues, families, semaphores and counters |
| KernelSteps.CreatedInv | phase2/exceptions.c:187-209 | SYS1 keeps the invariant of the nucleus |
| KernelSteps.PurgedInv | phase2/exceptions.c:435-475 | a kill keeps it if no victim waits just behind sem |
| KernelSteps.PurgedUnsafe | phase2/exceptions.c:461-465 | otherwise it leaves softBlockCount wrong |
| KernelSteps.SignalledInv | phase2/exceptions.c:237-257 | SYS3 keeps it |
| KernelSteps.BlockedInv | phase2/exceptions.c:272-283 | blocking the caller keeps it |
| KernelSteps.SignalledUnsafe | phase2/exceptions.c:237-257 | SYS3 on a semaphore of sem that somebody waits for, or on a clock at zero, leaves a count or an account wrong |
| KernelSteps.BlockedUnsafe | phase2/exceptions.c:272-283 | a blocking SYS4 on a semaphore of sem leaves softBlockCount one short |
| KernelSteps.IoUnsafe | phase2/exceptions.c:388-423 | a blocking SYS8 on a word outside sem leaves softBlockCount one too high |
| KernelSteps.IoDoneInv | phase2/interrupts.c:163-179 | a device's V keeps it, also when a kill has left a debt; the clock's too while it is negative |
| KernelSteps.DrainedInv | phase2/interrupts.c:79-91 | the drain loop keeps it |
| KernelSteps.TickDoneInv | phase2/interrupts.c:75-95 | resetting the clock semaphore keeps it |
| KernelSteps.FinishInv | phase2/interrupts.c:192-210 | preemption keeps it |
| KernelSteps.ScheduledInv | phase2/scheduler.c:37-87 | dispatching keeps it |
| KernelSteps.FromFirst | phase2/initial.c:94-114 | every live process descends from the first one |
| KernelRuns.KillPossible | phase2/exceptions.c:218-225 | whoever runs can be killed: some order of its descendants is a possible step |
| KernelRuns.InitialInv | phase2/initial.c:78-114 | main establishes it |
| KernelRuns.EntryInv | phase2/exceptions.c:113-172 | every kernel entry keeps it up to its call of scheduler |
| KernelRuns.StepInv | phase2/exceptions.c:113-172 | every safe kernel entry, of eleven kinds, keeps it |
| KernelRuns.StepExact | phase2/exceptions.c:113-475 | and no other: after any entry that is possible, a kill too, the invariant holds if and only if the entry was safe |
| KernelRuns.RunInv | phase2/exceptions.c:113-172 | so does every run |
| KernelTheorems.AlwaysInv | phase2/initial.c:78-114 | it holds in every state of every run from main |
| KernelTheorems.OnePlace | phase2/exceptions.c:187-475 | a block is in exactly one of the free stack, the ready queue, one semaphore's queue or running, and carries exactly the address it waits for |
| KernelTheorems.VerdictExact | phase2/scheduler.c:45-72 | HALT iff nobody lives; PANIC iff nobody is ready, somebody lives and all wait for user semaphores; WAIT iff nobody is ready and somebody waits for a device or the clock; the fall-through never happens |
| KernelTheorems.VerdictsInRuns | phase2/scheduler.c:45-72 | the same at every call of scheduler in every run |
| KernelTheorems.NoOrphans | phase2/exceptions.c:187-225 | every live process descends from the first, which lives |
| KernelTheorems.OrphansInRuns | phase2/exceptions.c:187-225 | in every run: no orphans, and no process is above and below another |
| KernelTheorems.NoCycle | phase2/exceptions.c:187-209 | the parent relation is acyclic |
| KernelTheorems.FirstHalts | phase2/scheduler.c:53-56 | when the first process terminates the machine halts |
| KernelTheorems.HaltsExactly | phase2/scheduler.c:53-56 | in every run: while somebody lives, a call of scheduler halts the machine if and only if the first process has just terminated |
| KernelTheorems.SemaphoresInRuns | phase2/exceptions.c:237-284 | in every run a user semaphore of value v blocks exactly max(0, -v) processes, one of sem at most that many, the clock is never positive, and the two counters count what they should |
| KernelTheorems.ClockKeepsCaller | phase2/exceptions.c:358-377 | in every run SYS7 keeps its caller: it is the last in the clock's queue |
| KernelTheorems.KillExact | phase2/exceptions.c:435-475 | exactly the subtree dies and processCount follows; softBlockCount loses the victims that waited in sem or just behind it, every other semaphore outside sem gains its victims |
| KernelTheorems.KillRight | phase2/exceptions.c:461-468 | softBlockCount loses just the victims that waited for a device or the clock, and every user semaphore gains its victims, each if and only if no victim waits just behind sem |
| KernelTheorems.BehindCredit | phase2/exceptions.c:461-468 | what that semaphore misses is one for each such victim |
| KernelTheorems.KillSpares | phase2/exceptions.c:435-475 | survivors keep their order in every queue, their parents, addresses and children, but for the one child that was killed |
| KernelTheorems.OnlyCurrentDies | phase2/exceptions.c:445-448 | among the children of survivors only the killed process dies |
| KernelSemaphores.SemaphoreLaws | phase2/exceptions.c:187-475 | every possible entry, safe or not, changes every semaphore by these laws: one less after a P, one more after a V, more by the victims a kill credits, 0 after an interval; a V takes out the front, a P that finds nothing puts its caller last |
| KernelSemaphores.ReadyLaw | phase2/scheduler.c:45-86 | every entry leaves the processor with its caller, exactly if it does not give it up, or with the first in line: those ready, then whom the entry wakes or makes in their order, then the interrupted process |
| KernelLedger.RunLedger | phase2/exceptions.c:237-284 | in every run, with no discipline of use: the value of a semaphore is the one at the start, less the P's, plus the V's, plus the victims of kills that waited for it |
| KernelLedger.LedgerFromBoot | phase2/initial.c:78-114 | the same from main; what is below nought of a user semaphore is how many wait |
| KernelLedger.ComeThrough | phase2/exceptions.c:237-284 | as many P's have come through as there have been V's on top of the value at the start, unless all have but those of the killed |
| KernelLedger.DeviceLedger | phase2/exceptions.c:388-423 | the value of a semaphore of sem is minus those who wait and those killed waiting, plus the V's that found nobody and no P has used up |
| KernelLedger.DevicesFromBoot | phase2/interrupts.c:163-179 | for the devices from main; it is also the V's less the P's |
| KernelLedger.ClockLaw | phase2/interrupts.c:75-96 | in every run from main the clock stands at minus those who wait and those killed waiting since the last interval, plus the V's charged to it since that found nobody |
| KernelWaiting.AnsweredReady | phase2/exceptions.c:237-257 | whoever a V or an interval takes out of a queue is ready or runs |
| KernelWaiting.ServedInTurn | phase2/exceptions.c:237-257 | with n ahead of it a process is woken or killed no later than by the (n + 1)-th V; if nobody is killed, by just that one |
| KernelWaiting.DevicesDistinct | phase2/exceptions.c:391-405 | every device, and each half of a terminal, has a semaphore of its own, not the clock's |
| KernelWaiting.InterruptIsFor | phase2/interrupts.c:131-158 | the semaphore an interrupt signals is the one that SYS8 waits on for device 0 of that line, or half of terminal, if device 0 is pending, else that of the next line, and never that of another device |
| KernelWaiting.IoAnswered | phase2/exceptions.c:388-423 | a process blocked by SYS8 on device 0 of a line behind n others is ready or dead by the (n + 1)-th interrupt of that device, in every run |
| KernelWaiting.NeverAnswered | phase2/interrupts.c:236-247 | a process blocked by SYS8 on any other device waits until it is killed, in every run |
| KernelTree.CreatedExact | phase2/exceptions.c:187-209 | the new process is the newest child of its creator; no other live process gets another parent or other children |
| KernelTree.CreatedDesc | phase2/exceptions.c:187-209 | a kill takes the new process exactly if it takes the creator; who descends from whom is otherwise as before |
| KernelTree.StepParent | phase2/exceptions.c:187-475 | no entry changes the parent of a process that lives on |
| KernelTree.DiesWithCreator | phase2/exceptions.c:435-475 | in every run: while a process made by SYS1 lives its creator lives and is its parent, and a kill of anybody else takes both or neither |
| KernelLimits.HeadOfAnother | phase1/asl.c:226-238 | headBlocked can return a process of another semaphore |
| KernelLimits.HeadExact | phase1/asl.c:226-238 | it keeps its promise exactly when the address is active or nothing above it is |
| KernelLimits.DrainHangs | phase2/interrupts.c:79-91 | a process blocked above the clock's address makes the next interval interrupt endless |
| KernelLimits.LowestDevice | phase2/interrupts.c:212-220 | the device promised: the lowest pending one from k on |
| KernelLimits.SecondDeviceMissed | phase2/interrupts.c:236-247 | with only device 1 pending the code finds device 8 |
| KernelLimits.DeviceExact | phase2/interrupts.c:236-247 | the device found is the promised one exactly when device 0 or none is pending |
| KernelLimits.IndexExact | phase2/interrupts.c:131-158 | the semaphore computed is the clock's exactly for a receiving terminal other than the first |
| KernelLimits.CallerExact | phase2/exceptions.c:358-377 | SYS7 does not lose its caller exactly when the clock's value is not positive |
| KernelLimits.ClockChargeExact | phase2/interrupts.c:131-165 | an interrupt charged to the clock breaks the invariant exactly when the clock is not negative |
| KernelLimits.CallerLost | phase2/exceptions.c:358-377 | after such an interrupt the next SYS7 loses its caller exactly when the clock was not negative |
| KernelLimits.FirstProcessLost | phase2/interrupts.c:131-165 | on a run from main: the interrupt, a SYS7, and the first process lives in no queue while the machine panics |
| KernelTime.DrainedPrepared | phase2/interrupts.c:79-91 | the drain loop bills each process once, with at most the handler's time, and never the running one |
| KernelTime.EntryFair | phase2/scheduler.c:39-43 | no kernel entry bills a block for more than the time gone by, nor takes any back |
| KernelTime.RunFair | phase2/scheduler.c:39-43 | between any two points of any run no block is billed more than the clock went on, over dispatch, SYS6, blocking, preemption and clock wake-ups |
| KernelTime.FairFromBoot | phase2/scheduler.c:39-80 | the same for all runs from main |
| KernelTime.ChargeExact | phase2/scheduler.c:39-43 | every entry bills the running process from its start to the entry's end where the code does, a process woken by the clock from the interrupt to its turn, and nobody else |
| KernelTime.BillExact | phase2/scheduler.c:39-43 | in readings of the clock: the running process pays from its start to scheduler or SYS6, without the handler's time if it was interrupted |
| KernelTime.WakersBilled | phase2/interrupts.c:79-91 | the j-th process the clock wakes pays from the interrupt to the reading taken at its turn |
| KernelTime.StartExact | phase2/scheduler.c:73-86 | whoever is dispatched, or has asked for its bill, starts at the last reading |
| KernelTime.NeverBilled | phase2/scheduler.c:39-43 | a bill is what it was exactly if no entry of the run has billed the block |
| KernelTime.BillInherited | phase1/pcb.c:79-103 | in every run from main without bills, a new process starts from nought exactly if no earlier owner of its block ran while the clock went on, or was woken by the clock a while after the interrupt |
| KernelWitness.BillHandedOn | phase1/pcb.c:79-103 | a run from main in which a new process starts with the bill of a dead one |
| KernelWitness.KillBehind | phase2/exceptions.c:461-465 | a run from main to a kill with a victim just behind sem: softBlockCount is -1, the semaphore stays at -1, and the next SYS7 panics while its caller waits for the clock |
| KernelWitness.DrainNeverEnds | phase2/interrupts.c:79-91 | a run from main after which the next interval interrupt does not return |
| KernelWitness.NobodyAnswers | phase2/interrupts.c:236-247 | a run from main to a process that waits for disk 1 in all that follows, whatever interrupts there are |
| KernelWitness.UnsafeWait | phase2/exceptions.c:267-284 | a run from main and a SYS4 on a device of sem: the machine panics while its caller waits for the device |
| KernelWitness.UnsafeSignal | phase2/exceptions.c:237-257 | a run from main and a SYS3 on a device of sem: softBlockCount counts a process that waits no more |
| KernelMutex.RunBalanced | phase2/exceptions.c:237-284 | along every run the value of a semaphore used P before V is 1 less those inside, those that died inside and those that wait |
| KernelMutex.OneInside | phase2/exceptions.c:237-284 | in every run from main a user semaphore that starts at 1 and is used P before V has at most one process inside; whoever dies inside is the last |
| KernelFairness.EntryKeepsPlaces | phase2/exceptions.c:113-172 | until scheduler is called nobody but the victims of a kill loses a place in the ready queue |
| KernelFairness.StepWaits | phase2/scheduler.c:45-86 | a process passed over by a dispatch moves up one place, and never falls back |
| KernelFairness.BoundedWaiting | phase2/scheduler.c:45-86 | with k processes ahead of it a ready process is dispatched or dies no later than by the (k + 1)-th dispatch of any run |
| Pagers.Freed | phase3/vmIOsupport.c:228-236 | the pool with the frames of one process given up and all others as they were |
| PagerInvs.StartedInv | phase3/initProc.c:48-112 | test() establishes the invariant of the pager |
| PagerInvs.GuardedKept | phase3/vmIOsupport.c:82-129 | exactly the process between P and V is inside the section of swap, and of disk 0 |
| PagerInvs.DevicesHeldKept | phase3/vmIOsupport.c:282-309 | a device's mutex has one holder, which knows it |
| PagerInvs.DevicesFirstKept | phase3/vmIOsupport.c:282-309 | nobody waits for a device while it holds one |
| PagerInvs.FaultsKept | phase3/vmIOsupport.c:71-84 | the page of a process in its fault handler is invalid all the while |
| PagerInvs.PoolKept | phase3/vmIOsupport.c:90-121 | a recorded frame is the one its page's valid entry names; the frame in transit is nobody's |
| PagerInvs.TablesKept | phase3/vmIOsupport.c:90-121 | a valid entry of a living process names a frame that records its page |
| PagerInvs.CacheKept | phase3/vmIOsupport.c:93-96 | because the cache is cleared on every change it never differs from the tables |
| PagerInvs.ArmKept | phase3/vmIOsupport.c:450-475 | the arm stays where the holder of disk 0 sent it |
| PagerInvs.PInvKept | phase3/vmIOsupport.c:51-132 | every step of every process keeps all of it |
| PagerInvs.RunPInv | phase3/vmIOsupport.c:51-132 | so does every interleaving |
| PagerMemory.TransferOnTarget | phase3/vmIOsupport.c:455-471 | every transfer of disk 0 hits the cylinder its own process sought and the block of the page it is about |
| PagerMemory.BlocksDiffer | phase3/vmIOsupport.c:465-468 | different private pages have different blocks |
| PagerMemory.FrameIsOwn | phase3/vmIOsupport.c:108-121 | a valid page of a living process is alone in its frame, which is not in transit |
| PagerMemory.ContentsKept | phase3/vmIOsupport.c:82-132 | a step changes the contents of a living process's page only by that process's own store or boot transfer; eviction, write-back, read-in and deaths of others change nothing |
| PagerMemory.RunContents | phase3/vmIOsupport.c:82-132 | in every interleaving a page holds what its owner last put there |
| PagerMemory.LoadsLastStore | phase3/vmIOsupport.c:82-132 | a load that finds its page gets the last value stored |
| PagerLocks.HolderRanks | phase3/vmIOsupport.c:82-129 | the holder of a mutex waits at most for one of a higher level: devices, swap, disk 0 |
| PagerLocks.NeverDeadlocked | phase3/vmIOsupport.c:266-309 | in no run does the wait-for graph have a cycle, or a path of more than three waits |
| PagerLocks.HoldersGoOn | phase3/vmIOsupport.c:436-477 | the holder of disk 0 can always step; that of swap can, or waits for it |
| PagerLocks.SectionsEnd | phase3/vmIOsupport.c:82-129 | a section ends within eleven steps of its holder, and nobody else prolongs it |
| PagerLocks.StepsOrWaits | phase3/vmIOsupport.c:436-477 | a process that has not died can take its next step or waits for somebody |
| PagerLocks.NobodyStuck | phase3/vmIOsupport.c:266-309 | in every run, as coded and repaired: from whoever has not died at most three waits lead to a process that can step, or, repaired only, to one that died with a device |
| PagerLocks.DiesWithDevice | phase3/vmIOsupport.c:220-246 | a death leaves a device mutex locked exactly if the process held one |
| PagerLocks.DeadKeepDevices | phase3/vmIOsupport.c:220-246 | and then for ever |
| PagerWitness.DeadHolder | phase3/vmIOsupport.c:220-246 | a run, as coded, in which a process dies with its printer |
| PagerWitness.StuckBehindDead | phase3/vmIOsupport.c:266-309 | a run, repaired, in which a process dies with disk 1 and another waits for it in all that follows |
| PagerRotation.JustLoaded | phase3/vmIOsupport.c:84-121 | a page that has just come in is in the frame chosen last |
| PagerRotation.StaysThrough | phase3/vmIOsupport.c:429-434 | it stays through the next SWAPSIZE - 1 faults of anybody unless its owner dies |
| PagerRotation.ThenGoesOut | phase3/vmIOsupport.c:429-434 | the fault after those evicts it |
| PagerBoot.BootExact | phase3/initProc.c:193-253 | any step of anybody leaves the boot of a process right, tape, buffer and disk, if and only if it does not put other data into its buffer before they are on disk, nor move its tape before it starts; as coded no step does |
| PagerBoot.TapeInPlace | phase3/initProc.c:193-253 | at the end of such a boot page k holds block k |
| PagerBoot.FirstTouch | phase3/initProc.c:193-253 | in every run from test(), as coded, and repaired if nobody spoils the boot: page k shows block k of the tape until its owner stores there |
| PagerBoot.AsCodedUnspoilt | phase3/vmIOsupport.c:277 | as coded nobody can spoil a boot |
| PagerBoot.BufferGoesOut | phase3/initProc.c:207-236 | what the buffer holds after its last filling, any number of steps before the transfer, is what goes to disk |
| PagerWitness.FirstPageLost | phase3/vmIOsupport.c:261 | a run, repaired, in which a use of disk 1 replaces the first page of process 2 |
| PagerWitness.FirstBlockSkipped | phase3/vmIOsupport.c:266-291 | a run, repaired, in which diskIO on the number of a tape moves it before its process boots |
| PagerTables.Inverse | phase3/vmIOsupport.c:90-121 | outside transit a frame records a page iff the page is valid and names the frame |
| PagerTables.NoSharedFrame | phase3/vmIOsupport.c:108-121 | no two valid pages share a frame |
| PagerTables.NobodySeesTransit | phase3/vmIOsupport.c:93-126 | no running process reaches the frame being refilled, nor another's |
| PagerTables.HitsExact | phase3/vmIOsupport.c:90-121 | an access goes through exactly if a frame outside transit records its page |
| PagerFault.FaultResolved | phase3/vmIOsupport.c:51-131 | in every interleaving: when a process leaves the handler of a page fault, the access that failed goes through |
| PagerTables.PagesNamedOnce | phase3/vmIOsupport.c:71-80 | the clamp of page numbers is one to one on the numbers that have an entry |
| PagerTables.ReapedExact | phase3/vmIOsupport.c:227-241 | after meIRL no frame is the dead process's and all others are untouched |
| PagerDeath.QuitDies | phase3/vmIOsupport.c:220-246 | in every interleaving: whoever quits dies by exactly three steps of its own, and from the second on no frame is its own |
| PagerTables.ValidBitsStay | phase3/vmIOsupport.c:232 | as coded a dead process keeps a valid entry exactly if it had a page in the pool |
| PagerWitness.DeadEntryStays | phase3/vmIOsupport.c:232 | a run, as coded, that ends with a dead process and its entry valid |
| Supports.Support.constructor | phase3/initProc.c:69-90 | the tables and loops of test(): all entries invalid, all frames free |
| Supports.Support.LoadWord | phase3/vmIOsupport.c:51-82 | a load gets the word of the frame, or is a page fault that stops at swap |
| Supports.Support.StoreWord | phase3/vmIOsupport.c:51-82 | a store likewise |
| Supports.Support.VmMemTrap | phase3/vmIOsupport.c:63-82 | any cause but TLBL and TLBS kills; the page number is clamped |
| Supports.Support.SpinTheBottle | phase3/vmIOsupport.c:429-434 | the frames come round in order |
| Supports.Support.TakeFrame | phase3/vmIOsupport.c:84-96 | the next frame, its page invalid and the cache clear |
| Supports.Support.PickFrame | phase3/vmIOsupport.c:84-103 | the victim is invalid and the cache clear before its write-back starts |
| Supports.Support.CommitPage | phase3/vmIOsupport.c:110-126 | pool, table and cache change together |
| Supports.Support.SeekCylinder | phase3/vmIOsupport.c:450-457 | P on disk 0 and the seek |
| Supports.Support.MoveBlock | phase3/vmIOsupport.c:461-471 | the transfer, at the cylinder the arm is at |
| Supports.Support.LeaveBacking | phase3/vmIOsupport.c:474-475 | V on disk 0 and what comes next |
| Supports.Support.ReadWriteBacking | phase3/vmIOsupport.c:436-477 | the whole function undisturbed: it returns with disk 0 free and no living page changed |
| Supports.Support.BringIn | phase3/vmIOsupport.c:84-106 | eviction, if need be, and read-in |
| Supports.Support.VmMemHandler | phase3/vmIOsupport.c:82-131 | the whole handler undisturbed: the page is valid in the frame chosen, no living page has changed, the mutexes are free |
| Supports.Support.MeIRL | phase3/vmIOsupport.c:227-241 | the loop over the pool gives up exactly the frames of the process |
| Supports.Support.DiskIO | phase3/vmIOsupport.c:266-282 | as coded every command that is not killed panics; repaired, every command but read and write |
| Supports.Support.ReadTapeBlock | phase3/initProc.c:197-204 | the block the tape is at is in the process's buffer, and the tape has moved on |
| Supports.Support.LoadBlock | phase3/initProc.c:193-253 | one round of the loop |
| Supports.Support.UProcInit | phase3/initProc.c:178-256 | the whole boot loop undisturbed: it ends, and page k holds block k |

## Left out

- The handlers that SYS5 names, and pass-up to them: a trap, like a second SYS5, may kill the running process.
- Register contents, processor status, `copyState`, trap areas, device registers and statuses, timers.
- Lines 0 and unknown of `ioTrapHandler`, which only panic.
- Wrap-around of the signed clock and of semaphore values: both are mathematical integers.
- Failed disk and tape operations.
- The second assignment of NULL to `pcb_semAdd` after `removeBlocked`, which changes nothing, and the order of the two address assignments in `insertBlocked`.
- Nuclei.Nucleus.SysSignal: semaphores outside `mem` are not modelled; `mem` is the words used as semaphores.
- Nuclei.Nucleus.SysGoPowerRangers: for any index whose word is in `mem`; the code checks none.
- Nuclei.Nucleus.GetDeviceNumber: the bitmap is a parameter, and the shift without effect is not written.
- PcbTables.PcbTable.AllocPcb: clearing the trap states of the block is not modelled.
- Handlers.SysCallHandler: SYS1 to SYS8 in kernel mode; whether SYS5 names a handler a second time is a parameter.
- KernelRuns.StepInv: the order in which a kill frees its victims is a parameter of the step; `ExecuteOrderSixtySix` computes one.
- Supports.Support.DiskIO: for numbers below 49, the length of `mutexArray`. From 8 on they are no disks: a tape can be moved, but what the commands do to printers and terminals is not modelled, nor that from 16 on the page copied through is a stack of the handlers.
- Supports.Support.VmMemHandler: segment 2 only. Shared pages of segment 3 are backed by the blocks of private pages, so what is proved of private pages does not hold of them.
- Supports.Support.MeIRL: `masterSem` and the end of `test()` are not modelled.
- Supports.Support.constructor: segment tables, entryHI words and the tables of the operating system are not modelled; an entry is its valid and dirty bits and its frame.
- The character loops of printer and terminal, except as holders of a device's mutex while they touch user memory.
- Virtual P and V, DELAY and the two lists behind them (adl.c, avsl.c).
- A page as a whole number of words: a page is the words written to it, the others read as zero.
